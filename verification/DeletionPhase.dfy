/** What the deletion of obsolete resources does in the end, in whatever order the clusters are walked. */
module DeletionPhase {
  import opened Refs
  import opened StatusList
  import opened Objects
  import opened Targets
  import opened Steps
  import opened Obsolete

  lemma RunStep(cfg: Config, fates: Oracle, agenda: seq<Task>, s: State)
    requires agenda != []
    ensures var (s', more) := Step(cfg, fates(s.pass.clock, agenda[0]), agenda[0], s);
            Run(cfg, fates, agenda, s) == Run(cfg, fates, more + agenda[1..], Ticked(s'))
  {
    hide Step;
  }

  ghost predicate Shrinks(a: seq<Task>, b: seq<Task>) {
    || PlanWeight(b) < PlanWeight(a)
    || (PlanWeight(b) == PlanWeight(a) && OuterWeight(b) < OuterWeight(a))
    || (PlanWeight(b) == PlanWeight(a) && OuterWeight(b) == OuterWeight(a) && InnerWeight(b) < InnerWeight(a))
    || (PlanWeight(b) == PlanWeight(a) && OuterWeight(b) == OuterWeight(a) && InnerWeight(b) == InnerWeight(a) && |b| < |a|)
  }

  lemma AgendaShrinks(cfg: Config, fate: Fate, a: seq<Task>, s: State)
    requires a != []
    ensures Shrinks(a, Step(cfg, fate, a[0], s).1 + a[1..])
  {
    var more := Step(cfg, fate, a[0], s).1;
    StepDescends(cfg, fate, a[0], s);
    WeightsAdd(more, a[1..]);
    WeightsAdd([a[0]], a[1..]);
    assert a == [a[0]] + a[1..];
    assert more == [] ==> more + a[1..] == a[1..];
    hide Step, PlanWeight, OuterWeight, InnerWeight;
  }

  lemma Regroup<T>(a: seq<T>, b: seq<T>, more: seq<T>)
    requires a != []
    ensures (a + b)[0] == a[0] && more + (a + b)[1..] == (more + a[1..]) + b
  {
    assert (a + b)[1..] == a[1..] + b;
  }

  /** Running two agendas after each other. */
  lemma {:induction false} RunSplit(cfg: Config, fates: Oracle, a: seq<Task>, b: seq<Task>, s: State)
    ensures Run(cfg, fates, a + b, s) == Run(cfg, fates, b, Run(cfg, fates, a, s))
    decreases PlanWeight(a), OuterWeight(a), InnerWeight(a), |a|
  {
    assert Run(cfg, fates, [], s) == s;
    hide Run, Step, PlanWeight, OuterWeight, InnerWeight;
    if a == [] {
      assert a + b == b;
    } else {
      var fate := fates(s.pass.clock, a[0]);
      var (s', more) := Step(cfg, fate, a[0], s);
      RunStep(cfg, fates, a, s);
      RunStep(cfg, fates, a + b, s);
      Regroup(a, b, more);
      AgendaShrinks(cfg, fate, a, s);
      RunSplit(cfg, fates, more + a[1..], b, Ticked(s'));
    }
  }

  lemma RunOne(cfg: Config, fates: Oracle, t: Task, s: State)
    ensures var (s', more) := Step(cfg, fates(s.pass.clock, t), t, s);
            Run(cfg, fates, [t], s) == Run(cfg, fates, more, Ticked(s'))
  {
    var more := Step(cfg, fates(s.pass.clock, t), t, s).1;
    assert more + [t][1..] == more;
  }

  lemma RunHead(cfg: Config, fates: Oracle, t: Task, rest: seq<Task>, s: State)
    ensures Run(cfg, fates, [t] + rest, s) == Run(cfg, fates, rest, Run(cfg, fates, [t], s))
  {
    RunSplit(cfg, fates, [t], rest, s);
  }

  lemma RunNothing(cfg: Config, fates: Oracle, s: State)
    ensures Run(cfg, fates, [], s) == s
  {}

  lemma RunLeaf(cfg: Config, fates: Oracle, t: Task, s: State)
    requires Step(cfg, fates(s.pass.clock, t), t, s).1 == []
    ensures Run(cfg, fates, [t], s) == Ticked(Step(cfg, fates(s.pass.clock, t), t, s).0)
  {
    RunOne(cfg, fates, t, s);
    RunNothing(cfg, fates, Ticked(Step(cfg, fates(s.pass.clock, t), t, s).0));
    hide Run, Step;
  }

  lemma RunPick(cfg: Config, fates: Oracle, todo: seq<Bucket>, s: State)
    requires todo != []
    ensures var i := fates(s.pass.clock, Obsolete(todo)).pick % |todo|;
            Run(cfg, fates, [Obsolete(todo)], s) ==
            Run(cfg, fates, [Obsolete(Without(todo, i))], Run(cfg, fates, [OpenBucket(todo[i])], Ticked(s)))
  {
    var i := fates(s.pass.clock, Obsolete(todo)).pick % |todo|;
    RunOne(cfg, fates, Obsolete(todo), s);
    hide Run, Ticked;
    assert [OpenBucket(todo[i]), Obsolete(Without(todo, i))] == [OpenBucket(todo[i])] + [Obsolete(Without(todo, i))];
    RunHead(cfg, fates, OpenBucket(todo[i]), [Obsolete(Without(todo, i))], Ticked(s));
  }

  lemma RunNoBuckets(cfg: Config, fates: Oracle, s: State)
    ensures Run(cfg, fates, [Obsolete([])], s) == Ticked(s)
  {
    RunLeaf(cfg, fates, Obsolete([]), s);
  }

  lemma PlannedBuckets(cfg: Config, s: State)
    ensures Steps.PlanDeletion(cfg, s).1 == [Obsolete(BucketsFor(cfg, s.pass, ClustersOf(Walk(s.pass.status))))]
  {}

  // ---- One entry ----

  /** What becomes of the object of an entry that is deleted. */
  function Effect(cfg: Config, id: ReplicaId, fate: Fate, before: Option<Object>): Option<Object> {
    if !fate.get || before.None? || !IsManaged(cfg.provider, id, before.value) || fate.write.Lost? then before
    else if Kept(before.value) then Some(Released(before.value))
    else Some(Marked(before.value))
  }

  /** Whether the entry leaves the status. */
  predicate Gone(cfg: Config, id: ReplicaId, fate: Fate, before: Option<Object>) {
    && fate.get
    && (before.None? || !IsManaged(cfg.provider, id, before.value) || (Kept(before.value) && fate.write.Ok?))
  }

  /** The phase touches nothing but objects, the status in memory, conditions and counters. */
  ghost predicate SameRest(s: State, s': State) {
    && s'.world.namespaces == s.world.namespaces && s'.persisted == s.persisted
    && s'.pass.id == s.pass.id && s'.pass.clusters == s.pass.clusters && s'.pass.managed == s.pass.managed
    && s'.pass.oldStatus == s.pass.oldStatus && s'.pass.inDeletion == s.pass.inDeletion
  }

  // ---- The list without some of its entries ----

  ghost function DroppedFrom(gvk: GVK, rs: seq<CreatedResource>, gone: set<Location>): seq<CreatedResource> {
    if rs == [] then [] else (if LocationOf(gvk, rs[0]) in gone then [] else [rs[0]]) + DroppedFrom(gvk, rs[1..], gone)
  }

  /** The list without the entries in gone; everything else keeps its place, and an empty group stays. */
  ghost function Dropped(gs: seq<Group>, gone: set<Location>): seq<Group> {
    if gs == [] then [] else [Group(gs[0].gvk, DroppedFrom(gs[0].gvk, gs[0].resources, gone))] + Dropped(gs[1..], gone)
  }

  lemma {:induction false} DroppedFromAlike(gvk: GVK, rs: seq<CreatedResource>, a: set<Location>, b: set<Location>)
    requires forall r :: r in rs ==> (LocationOf(gvk, r) in a <==> LocationOf(gvk, r) in b)
    ensures DroppedFrom(gvk, rs, a) == DroppedFrom(gvk, rs, b)
  {
    hide LocationOf;
    if rs != [] {
      assert rs[0] in rs;
      DroppedFromAlike(gvk, rs[1..], a, b);
    }
  }

  lemma {:induction false} DroppedFromNothing(gvk: GVK, rs: seq<CreatedResource>, gone: set<Location>)
    requires forall r :: r in rs ==> LocationOf(gvk, r) !in gone
    ensures DroppedFrom(gvk, rs, gone) == rs
  {
    hide LocationOf;
    if rs != [] {
      assert rs[0] in rs && rs == [rs[0]] + rs[1..];
      DroppedFromNothing(gvk, rs[1..], gone);
    }
  }

  lemma {:induction false} DroppedFromTwice(gvk: GVK, rs: seq<CreatedResource>, a: set<Location>, b: set<Location>)
    ensures DroppedFrom(gvk, DroppedFrom(gvk, rs, a), b) == DroppedFrom(gvk, rs, a + b)
  {
    hide LocationOf;
    if rs != [] {
      DroppedFromTwice(gvk, rs[1..], a, b);
      var rest := DroppedFrom(gvk, rs[1..], a);
      assert [] + rest == rest && ([rs[0]] + rest)[1..] == rest;
    }
  }

  lemma {:induction false} DroppedTwice(gs: seq<Group>, a: set<Location>, b: set<Location>)
    ensures Dropped(Dropped(gs, a), b) == Dropped(gs, a + b)
  {
    hide DroppedFrom;
    if gs != [] {
      DroppedTwice(gs[1..], a, b);
      DroppedFromTwice(gs[0].gvk, gs[0].resources, a, b);
      var head := Group(gs[0].gvk, DroppedFrom(gs[0].gvk, gs[0].resources, a));
      assert ([head] + Dropped(gs[1..], a))[1..] == Dropped(gs[1..], a);
    }
  }

  lemma {:induction false} NothingDropped(gs: seq<Group>)
    ensures Dropped(gs, {}) == gs
  {
    hide DroppedFrom;
    if gs != [] {
      NothingDropped(gs[1..]);
      DroppedFromNothing(gs[0].gvk, gs[0].resources, {});
      assert gs == [gs[0]] + gs[1..];
    }
  }

  /** One entry of one group: the first that matches is the only one. */
  lemma {:induction false} FirstIsDropped(l: Location, rs: seq<CreatedResource>)
    requires NoDuplicates(rs) && forall r :: r in rs ==> r.cluster != Some(HOSTING)
    ensures WithoutFirst(rs, Resource(l)) == DroppedFrom(l.ref.gvk, rs, {l})
  {
    if rs != [] {
      var rest := rs[1..];
      assert rs[0] in rs;
      NoDuplicatesTail(rs);
      ResourceAt(l, rs[0]);
      hide Resource, LocationOf, NoDuplicates;
      if rs[0] == Resource(l) {
        forall r | r in rest ensures LocationOf(l.ref.gvk, r) != l {
          ResourceAt(l, r);
        }
        DroppedFromNothing(l.ref.gvk, rest, {l});
        WithoutFirstHead(rs);
      } else {
        FirstIsDropped(l, rest);
        WithoutLater(rs, Resource(l));
        hide WithoutFirst;
      }
    }
  }

  lemma NoDuplicatesTail<T>(s: seq<T>)
    requires s != [] && NoDuplicates(s)
    ensures NoDuplicates(s[1..]) && s[0] !in s[1..] && forall x :: x in s[1..] ==> x in s
  {
    assert forall k :: 0 <= k < |s[1..]| ==> s[1..][k] == s[k + 1];
  }

  lemma ResourceAt(l: Location, r: CreatedResource)
    requires r.cluster != Some(HOSTING)
    ensures LocationOf(l.ref.gvk, r) == l <==> r == Resource(l)
  {}

  lemma WithoutFirstHead(rs: seq<CreatedResource>)
    requires rs != []
    ensures WithoutFirst(rs, rs[0]) == rs[1..]
  {}

  lemma WithoutLater(rs: seq<CreatedResource>, res: CreatedResource)
    requires rs != [] && rs[0] != res
    ensures WithoutFirst(rs, res) == [rs[0]] + WithoutFirst(rs[1..], res)
  {
    var i := IndexOf(rs[1..], res);
    assert IndexOf(rs, res) == i + 1;
    assert rs == [rs[0]] + rs[1..];
    if i < |rs[1..]| {
      CutLater(rs, i);
    }
  }

  lemma CutLater<T>(rs: seq<T>, i: nat)
    requires i + 1 < |rs|
    ensures rs[..i + 1] + rs[i + 2..] == [rs[0]] + (rs[1..][..i] + rs[1..][i + 1..])
  {}

  lemma {:induction false} OtherTypesKept(gs: seq<Group>, l: Location)
    requires forall g :: g in gs ==> g.gvk != l.ref.gvk
    ensures Dropped(gs, {l}) == gs
  {
    hide DroppedFrom;
    if gs != [] {
      assert gs[0] in gs && gs == [gs[0]] + gs[1..];
      OtherTypesKept(gs[1..], l);
      DroppedFromNothing(gs[0].gvk, gs[0].resources, {l});
    }
  }

  lemma WellFormedTail(gs: seq<Group>)
    requires WellFormed(gs) && gs != []
    ensures WellFormed(gs[1..]) && GroupOk(gs[0]) && forall g :: g in gs[1..] ==> g.gvk != gs[0].gvk
  {
    assert forall i :: 0 <= i < |gs[1..]| ==> gs[1..][i] == gs[i + 1];
  }

  /** Removing an entry drops it and moves nothing else. */
  lemma {:induction false} RemovedIsDropped(gs: seq<Group>, l: Location)
    requires WellFormed(gs)
    ensures RemovedAt(gs, l) == Dropped(gs, {l})
  {
    hide DroppedFrom, WithoutFirst, WellFormed, GroupOk;
    if gs != [] {
      WellFormedTail(gs);
      var g, rest := gs[0], gs[1..];
      assert gs == [g] + rest;
      if g.gvk == l.ref.gvk {
        FirstOfGroup(g, l);
        OtherTypesKept(rest, l);
      } else {
        RemovedIsDropped(rest, l);
        DroppedFromNothing(g.gvk, g.resources, {l});
        RemovedLater(gs, l);
      }
    }
  }

  lemma FirstOfGroup(g: Group, l: Location)
    requires GroupOk(g)
    ensures WithoutFirst(g.resources, Resource(l)) == DroppedFrom(l.ref.gvk, g.resources, {l})
  {
    FirstIsDropped(l, g.resources);
  }

  lemma RemovedLater(gs: seq<Group>, l: Location)
    requires gs != [] && gs[0].gvk != l.ref.gvk
    ensures RemovedAt(gs, l) == [gs[0]] + RemovedAt(gs[1..], l)
  {
    hide WithoutFirst;
    assert gs == [gs[0]] + gs[1..];
  }

  /** The entries in done that leave the status. */
  ghost function GoneOf(cfg: Config, outcome: Location -> Fate, done: set<Location>, s: State): set<Location> {
    set l | l in done && Gone(cfg, s.pass.id, outcome(l), Lookup(s.world.objects, l))
  }

  /** The entries in done have been handled, each with its own outcome. */
  ghost predicate Handled(cfg: Config, outcome: Location -> Fate, done: set<Location>, s: State, s': State) {
    && SameRest(s, s')
    && WellFormed(s'.pass.status) && s'.pass.status == Dropped(s.pass.status, GoneOf(cfg, outcome, done, s))
    && (forall l :: Lookup(s'.world.objects, l) ==
          if l in done then Effect(cfg, s.pass.id, outcome(l), Lookup(s.world.objects, l)) else Lookup(s.world.objects, l))
    && (forall l :: l in Tracked(s'.pass.status) <==>
          l in Tracked(s.pass.status) && !(l in done && Gone(cfg, s.pass.id, outcome(l), Lookup(s.world.objects, l))))
  }

  lemma HandledTwice(cfg: Config, outcome: Location -> Fate, d1: set<Location>, d2: set<Location>, s: State, m: State, s': State)
    requires d1 !! d2 && Handled(cfg, outcome, d1, s, m) && Handled(cfg, outcome, d2, m, s')
    ensures Handled(cfg, outcome, d1 + d2, s, s')
  {
    hide Tracked, WellFormed, Effect, Gone, Dropped;
    DroppedTwice(s.pass.status, GoneOf(cfg, outcome, d1, s), GoneOf(cfg, outcome, d2, m));
    assert GoneOf(cfg, outcome, d1 + d2, s) == GoneOf(cfg, outcome, d1, s) + GoneOf(cfg, outcome, d2, m);
  }

  ghost predicate SameCalls(f: Fate, g: Fate) {
    f.get == g.get && f.write == g.write
  }

  /** The object and the entry after one deletion; the rest stays. */
  lemma DeleteOutcome(cfg: Config, fate: Fate, l: Location, s: State)
    ensures var s' := DeleteObsolete(cfg, fate, l, s);
            var before := Lookup(s.world.objects, l);
            var after := Effect(cfg, s.pass.id, fate, before);
            && SameRest(s, s')
            && s'.world.objects == (if after == before then s.world.objects else s.world.objects[l := after.value])
            && s'.pass.status == (if Gone(cfg, s.pass.id, fate, before) then RemovedAt(s.pass.status, l) else s.pass.status)
  {
    hide IsManaged, Kept, Released, RemovedAt;
    if l in s.world.objects {
      var o := s.world.objects[l];
      assert o.inDeletion ==> Marked(o) == o;
      if fate.get && IsManaged(cfg.provider, s.pass.id, o) && o.inDeletion && !Kept(o) {
        assert Effect(cfg, s.pass.id, fate, Some(o)) == Some(o);
      } else if fate.get && IsManaged(cfg.provider, s.pass.id, o) && fate.write != Lost {
        assert s.world.objects[l := o] == s.world.objects;
      }
    }
  }

  lemma EffectOfCalls(cfg: Config, id: ReplicaId, f: Fate, g: Fate, before: Option<Object>)
    requires SameCalls(f, g)
    ensures Effect(cfg, id, f, before) == Effect(cfg, id, g, before) && Gone(cfg, id, f, before) == Gone(cfg, id, g, before)
    ensures before.Some? <==> Effect(cfg, id, f, before).Some?
  {
    hide IsManaged, Kept, Released, Marked;
  }

  lemma GoneOfOne(cfg: Config, outcome: Location -> Fate, l: Location, s: State)
    ensures GoneOf(cfg, outcome, {l}, s) == if Gone(cfg, s.pass.id, outcome(l), Lookup(s.world.objects, l)) then {l} else {}
  {
    hide Gone;
  }

  /** What one deletion leaves of the list. */
  lemma DeleteDrops(cfg: Config, fate: Fate, l: Location, s: State, outcome: Location -> Fate)
    requires WellFormed(s.pass.status) && SameCalls(fate, outcome(l))
    ensures var s' := DeleteObsolete(cfg, fate, l, s);
            && s'.pass.status == Dropped(s.pass.status, GoneOf(cfg, outcome, {l}, s))
            && WellFormed(s'.pass.status)
            && forall x :: x in Tracked(s'.pass.status) <==>
                 x in Tracked(s.pass.status) && !(x == l && Gone(cfg, s.pass.id, outcome(l), Lookup(s.world.objects, l)))
  {
    RawRefinesSet(s.pass.status, l);
    RemovedIsDropped(s.pass.status, l);
    NothingDropped(s.pass.status);
    DeleteOutcome(cfg, fate, l, s);
    GoneOfOne(cfg, outcome, l, s);
    EffectOfCalls(cfg, s.pass.id, fate, outcome(l), Lookup(s.world.objects, l));
    hide Tracked, WellFormed, RemovedAt, DeleteObsolete, Effect, Gone, Dropped, GoneOf, SameRest;
  }

  lemma DeleteHandles(cfg: Config, fate: Fate, l: Location, s: State, outcome: Location -> Fate)
    requires WellFormed(s.pass.status) && SameCalls(fate, outcome(l))
    ensures Handled(cfg, outcome, {l}, s, Ticked(DeleteObsolete(cfg, fate, l, s)))
  {
    DeleteOutcome(cfg, fate, l, s);
    DeleteDrops(cfg, fate, l, s, outcome);
    EffectOfCalls(cfg, s.pass.id, fate, outcome(l), Lookup(s.world.objects, l));
    hide Tracked, WellFormed, RemovedAt, DeleteObsolete, Effect, Gone, Dropped, GoneOf;
  }

  // ---- One cluster, all clusters ----

  ghost function BucketSet(b: Bucket): set<Location> {
    set r | r in b.refs :: Location(b.cluster, r)
  }

  /** The entries whose cluster can be reached. */
  ghost function Reachable(access: ObjectReference -> bool, buckets: seq<Bucket>): set<Location> {
    if buckets == [] then {}
    else (if access(buckets[0].cluster) then BucketSet(buckets[0]) else {}) + Reachable(access, buckets[1..])
  }

  /** The outcome of a call depends on what it is about, not on when it is made. */
  ghost predicate Steady(fates: Oracle, access: ObjectReference -> bool, outcome: Location -> Fate) {
    && (forall n, l :: SameCalls(fates(n, Delete(l)), outcome(l)))
    && (forall n, b :: fates(n, OpenBucket(b)).access == access(b.cluster))
  }

  lemma HandledNone(cfg: Config, outcome: Location -> Fate, s: State, s': State)
    requires WellFormed(s.pass.status) && SameRest(s, s') && s'.world == s.world && s'.pass.status == s.pass.status
    ensures Handled(cfg, outcome, {}, s, s')
  {
    hide Tracked, WellFormed, Gone, Effect, Dropped;
    NothingDropped(s.pass.status);
    assert GoneOf(cfg, outcome, {}, s) == {};
  }

  lemma {:induction false} DeletesHandle(cfg: Config, fates: Oracle, access: ObjectReference -> bool, outcome: Location -> Fate,
                                         cluster: ObjectReference, refs: seq<TypedRef>, s: State)
    requires Steady(fates, access, outcome) && WellFormed(s.pass.status) && NoDuplicates(refs)
    ensures Handled(cfg, outcome, BucketSet(Bucket(cluster, refs)), s, Run(cfg, fates, DeleteTasks(cluster, refs), s))
  {
    if refs == [] {
      assert Run(cfg, fates, [], s) == s;
      HandledNone(cfg, outcome, s, s);
      assert BucketSet(Bucket(cluster, [])) == {};
    } else {
      var l := Location(cluster, refs[0]);
      var fate := fates(s.pass.clock, Delete(l));
      var s1 := Ticked(DeleteObsolete(cfg, fate, l, s));
      assert Run(cfg, fates, [Delete(l)], s) == s1 by {
        RunOne(cfg, fates, Delete(l), s);
        assert Run(cfg, fates, [], s1) == s1;
      }
      RunHead(cfg, fates, Delete(l), DeleteTasks(cluster, refs[1..]), s);
      DeleteHandles(cfg, fate, l, s, outcome);
      var rest := BucketSet(Bucket(cluster, refs[1..]));
      assert BucketSet(Bucket(cluster, refs)) == {l} + rest && l !in rest;
      hide Run, Handled, Steady, DeleteObsolete, WellFormed, BucketSet;
      assert WellFormed(s1.pass.status) by {
        HandledWellFormed(cfg, outcome, {l}, s, s1);
      }
      DeletesHandle(cfg, fates, access, outcome, cluster, refs[1..], s1);
      HandledTwice(cfg, outcome, {l}, rest, s, s1, Run(cfg, fates, DeleteTasks(cluster, refs), s));
    }
  }

  lemma HandledWellFormed(cfg: Config, outcome: Location -> Fate, done: set<Location>, s: State, s': State)
    requires Handled(cfg, outcome, done, s, s')
    ensures WellFormed(s'.pass.status) && SameRest(s, s')
  {}

  lemma BucketHandles(cfg: Config, fates: Oracle, access: ObjectReference -> bool, outcome: Location -> Fate, b: Bucket, s: State)
    requires Steady(fates, access, outcome) && WellFormed(s.pass.status) && NoDuplicates(b.refs)
    ensures Handled(cfg, outcome, if access(b.cluster) then BucketSet(b) else {}, s, Run(cfg, fates, [OpenBucket(b)], s))
  {
    var fate := fates(s.pass.clock, OpenBucket(b));
    RunOne(cfg, fates, OpenBucket(b), s);
    if fate.access {
      DeletesHandle(cfg, fates, access, outcome, b.cluster, b.refs, Ticked(s));
      HandledNone(cfg, outcome, s, Ticked(s));
      hide Run, Handled;
      assert {} + BucketSet(b) == BucketSet(b);
      HandledTwice(cfg, outcome, {}, BucketSet(b), s, Ticked(s), Run(cfg, fates, DeleteTasks(b.cluster, b.refs), Ticked(s)));
    } else {
      var s1 := Ticked(WithError(ReportAll(cfg, b, |b.refs|, s)));
      assert Run(cfg, fates, [], s1) == s1;
      hide Run;
      ReportAllSame(cfg, b, |b.refs|, s);
      HandledNone(cfg, outcome, s, s1);
    }
  }

  lemma {:induction false} ReportAllSame(cfg: Config, b: Bucket, n: nat, s: State)
    requires n <= |b.refs|
    ensures var s' := ReportAll(cfg, b, n, s);
            s' == s.(pass := s.pass.(conditions := s'.pass.conditions))
  {
    if n > 0 {
      ReportAllSame(cfg, b, n - 1, s);
    }
  }

  ghost predicate BucketsOk(buckets: seq<Bucket>) {
    && (forall i, j :: 0 <= i < j < |buckets| ==> buckets[i].cluster != buckets[j].cluster)
    && (forall b :: b in buckets ==> NoDuplicates(b.refs))
  }

  lemma {:induction false} ReachableMembers(access: ObjectReference -> bool, buckets: seq<Bucket>)
    ensures forall l :: l in Reachable(access, buckets) <==> access(l.cluster) && InBuckets(buckets, l)
  {
    if buckets != [] {
      var b, rest := buckets[0], buckets[1..];
      ReachableMembers(access, rest);
      assert buckets == [b] + rest;
      forall l ensures InBuckets(buckets, l) <==> l in BucketSet(b) || InBuckets(rest, l) {
        if InBuckets(rest, l) {
          var c :| c in rest && c.cluster == l.cluster && l.ref in c.refs;
          assert c in buckets;
        }
        if l in BucketSet(b) {
          assert b in buckets;
        }
      }
    }
  }

  lemma WithoutMembers(buckets: seq<Bucket>, i: nat)
    requires i < |buckets| && BucketsOk(buckets)
    ensures BucketsOk(Without(buckets, i))
    ensures forall c :: c in buckets <==> c == buckets[i] || c in Without(buckets, i)
    ensures forall c :: c in Without(buckets, i) ==> c.cluster != buckets[i].cluster
  {
    var others := Without(buckets, i);
    assert forall k :: 0 <= k < |others| ==> others[k] == buckets[if k < i then k else k + 1];
    forall c | c in buckets && c != buckets[i] ensures c in others {
      var k :| 0 <= k < |buckets| && buckets[k] == c;
      assert others[if k < i then k else k - 1] == c;
    }
  }

  lemma InBucketsSplit(buckets: seq<Bucket>, b: Bucket, others: seq<Bucket>, l: Location)
    requires forall c :: c in buckets <==> c == b || c in others
    ensures InBuckets(buckets, l) <==> l in BucketSet(b) || InBuckets(others, l)
  {}

  lemma PickSplits(buckets: seq<Bucket>, i: nat, l: Location)
    requires i < |buckets| && BucketsOk(buckets)
    ensures BucketsOk(Without(buckets, i))
    ensures InBuckets(buckets, l) <==> l in BucketSet(buckets[i]) || InBuckets(Without(buckets, i), l)
    ensures InBuckets(Without(buckets, i), l) ==> l.cluster != buckets[i].cluster
    ensures l in BucketSet(buckets[i]) ==> l.cluster == buckets[i].cluster
  {
    WithoutMembers(buckets, i);
    InBucketsSplit(buckets, buckets[i], Without(buckets, i), l);
    hide BucketsOk;
  }

  /** Picking one bucket first leaves the others. */
  lemma ReachableWithout(access: ObjectReference -> bool, buckets: seq<Bucket>, i: nat)
    requires i < |buckets| && BucketsOk(buckets)
    ensures BucketsOk(Without(buckets, i))
    ensures var first := if access(buckets[i].cluster) then BucketSet(buckets[i]) else {};
            var rest := Reachable(access, Without(buckets, i));
            first !! rest && first + rest == Reachable(access, buckets)
  {
    var b, others := buckets[i], Without(buckets, i);
    hide Reachable, BucketsOk, InBuckets, BucketSet, Without;
    ReachableMembers(access, buckets);
    ReachableMembers(access, others);
    PickSplits(buckets, i, Location(b.cluster, TypedRef(GVK("", "", ""), "", "")));
    var first, rest := if access(b.cluster) then BucketSet(b) else {}, Reachable(access, others);
    forall l
      ensures !(l in first && l in rest)
      ensures l in first + rest <==> l in Reachable(access, buckets)
    {
      PickSplits(buckets, i, l);
    }
  }

  /** The whole phase handles exactly the reachable entries, whatever order the picks give. */
  lemma {:induction false} ObsoleteHandles(cfg: Config, fates: Oracle, access: ObjectReference -> bool, outcome: Location -> Fate, buckets: seq<Bucket>, s: State)
    requires Steady(fates, access, outcome) && WellFormed(s.pass.status) && BucketsOk(buckets)
    ensures Handled(cfg, outcome, Reachable(access, buckets), s, Run(cfg, fates, [Obsolete(buckets)], s))
    decreases |buckets|
  {
    RunOne(cfg, fates, Obsolete(buckets), s);
    HandledNone(cfg, outcome, s, Ticked(s));
    if buckets == [] {
      assert Run(cfg, fates, [], Ticked(s)) == Ticked(s);
    } else {
      var i := fates(s.pass.clock, Obsolete(buckets)).pick % |buckets|;
      var b, others := buckets[i], Without(buckets, i);
      assert b in buckets;
      var first := if access(b.cluster) then BucketSet(b) else {};
      var s1 := Ticked(s);
      var s2 := Run(cfg, fates, [OpenBucket(b)], s1);
      assert [OpenBucket(b), Obsolete(others)] == [OpenBucket(b)] + [Obsolete(others)];
      RunHead(cfg, fates, OpenBucket(b), [Obsolete(others)], s1);
      ReachableWithout(access, buckets, i);
      hide Run, Handled, Steady, BucketsOk, Reachable, WellFormed;
      assert WellFormed(s1.pass.status);
      assert NoDuplicates(b.refs) by {
        BucketOk(buckets, b);
      }
      BucketHandles(cfg, fates, access, outcome, b, s1);
      HandledWellFormed(cfg, outcome, first, s1, s2);
      ObsoleteHandles(cfg, fates, access, outcome, others, s2);
      var s3 := Run(cfg, fates, [Obsolete(others)], s2);
      HandledTwice(cfg, outcome, first, Reachable(access, others), s1, s2, s3);
      HandledTwice(cfg, outcome, {}, Reachable(access, buckets), s, s1, s3);
      assert {} + Reachable(access, buckets) == Reachable(access, buckets);
    }
  }

  lemma BucketOk(buckets: seq<Bucket>, b: Bucket)
    requires BucketsOk(buckets) && b in buckets
    ensures NoDuplicates(b.refs)
  {}

  /** With the same outcome for every call, two runs over the same entries in different orders end with the same objects and the same list. */
  lemma DeletionsInAnyOrder(cfg: Config, f: Oracle, g: Oracle, access: ObjectReference -> bool, outcome: Location -> Fate,
                            a: seq<Bucket>, b: seq<Bucket>, s: State)
    requires Steady(f, access, outcome) && Steady(g, access, outcome)
    requires WellFormed(s.pass.status) && BucketsOk(a) && BucketsOk(b)
    requires forall l :: InBuckets(a, l) <==> InBuckets(b, l)
    ensures var x, y := Run(cfg, f, [Obsolete(a)], s), Run(cfg, g, [Obsolete(b)], s);
            x.world == y.world && x.pass.status == y.pass.status && SameRest(s, x) && SameRest(s, y)
  {
    ObsoleteHandles(cfg, f, access, outcome, a, s);
    ObsoleteHandles(cfg, g, access, outcome, b, s);
    ReachableMembers(access, a);
    ReachableMembers(access, b);
    assert Reachable(access, a) == Reachable(access, b);
    var x, y := Run(cfg, f, [Obsolete(a)], s), Run(cfg, g, [Obsolete(b)], s);
    hide Run, Steady, WellFormed, Tracked, InBuckets, Reachable, Effect, Gone, Dropped;
    SameLookups(x.world.objects, y.world.objects);
  }

  lemma RunClosing(cfg: Config, fates: Oracle, todo: seq<Bucket>, s: State)
    ensures var x := Run(cfg, fates, [Obsolete(todo)], s);
            var c := Ticked(CleanStatus(x));
            Run(cfg, fates, [Obsolete(todo), Cleanup, UpdateStatus], s) == Ticked(WriteStatus(fates(c.pass.clock, UpdateStatus), c))
  {
    var x := Run(cfg, fates, [Obsolete(todo)], s);
    hide Run, CleanStatus, WriteStatus;
    assert [Obsolete(todo)] + [Cleanup, UpdateStatus] == [Obsolete(todo), Cleanup, UpdateStatus];
    assert [Cleanup] + [UpdateStatus] == [Cleanup, UpdateStatus];
    RunHead(cfg, fates, Obsolete(todo), [Cleanup, UpdateStatus], s);
    RunHead(cfg, fates, Cleanup, [UpdateStatus], x);
    RunLeaf(cfg, fates, Cleanup, x);
    RunLeaf(cfg, fates, UpdateStatus, Ticked(CleanStatus(x)));
  }

  /** The outcome does not depend on the order in which clusters and entries are walked: with the same outcome for every call, two passes
      that delete the same entries end with the same objects and, after cleanup and status update, with the same status, entry by entry. */
  lemma OrderDoesNotMatter(cfg: Config, f: Oracle, g: Oracle, access: ObjectReference -> bool, outcome: Location -> Fate,
                           a: seq<Bucket>, b: seq<Bucket>, s: State)
    requires Steady(f, access, outcome) && Steady(g, access, outcome)
    requires forall m, n :: f(m, UpdateStatus).patch == g(n, UpdateStatus).patch
    requires WellFormed(s.pass.status) && BucketsOk(a) && BucketsOk(b)
    requires forall l :: InBuckets(a, l) <==> InBuckets(b, l)
    ensures var x, y := Run(cfg, f, [Obsolete(a), Cleanup, UpdateStatus], s), Run(cfg, g, [Obsolete(b), Cleanup, UpdateStatus], s);
            x.world == y.world && x.persisted == y.persisted && x.pass.status == y.pass.status
  {
    DeletionsInAnyOrder(cfg, f, g, access, outcome, a, b, s);
    RunClosing(cfg, f, a, s);
    RunClosing(cfg, g, b, s);
    var x, y := Ticked(CleanStatus(Run(cfg, f, [Obsolete(a)], s))), Ticked(CleanStatus(Run(cfg, g, [Obsolete(b)], s)));
    assert f(x.pass.clock, UpdateStatus).patch == g(y.pass.clock, UpdateStatus).patch;
    hide Run, Steady, WellFormed, Tracked, InBuckets, Cleaned, TrackAll;
  }

  lemma SameLookups<K(!new), V>(m: map<K, V>, n: map<K, V>)
    requires forall k :: Lookup(m, k) == Lookup(n, k)
    ensures m == n
  {
    forall k ensures k in m <==> k in n
      ensures k in m ==> k in n && m[k] == n[k]
    {
      assert Lookup(m, k) == Lookup(n, k);
    }
  }
}
