/** The filters of deleteObsoleteResources, edited in place, and the set they compute. */
module Obsolete {
  import opened Refs
  import opened StatusList
  import opened Objects
  import opened Targets
  import opened Steps

  // ---- Members of the lists ----

  lemma {:induction false} ClustersOfMembers(walk: seq<Location>)
    ensures NoDuplicates(ClustersOf(walk))
    ensures forall c :: c in ClustersOf(walk) <==> exists l :: l in walk && l.cluster == c
  {
    if walk != [] {
      var last := |walk| - 1;
      ClustersOfMembers(walk[..last]);
      assert walk == walk[..last] + [walk[last]];
      assert walk[last] in walk;
    }
  }

  lemma {:induction false} RefsOnMembers(walk: seq<Location>, cluster: ObjectReference)
    ensures NoDuplicates(RefsOn(walk, cluster))
    ensures forall r :: r in RefsOn(walk, cluster) <==> Location(cluster, r) in walk
  {
    if walk != [] {
      var last := |walk| - 1;
      RefsOnMembers(walk[..last], cluster);
      assert walk == walk[..last] + [walk[last]];
    }
  }

  lemma {:induction false} UnmanagedMembers(managed: seq<Location>, cluster: ObjectReference, refs: seq<TypedRef>)
    ensures forall r :: r in Unmanaged(managed, cluster, refs) <==> r in refs && Location(cluster, r) !in managed
    ensures NoDuplicates(refs) ==> NoDuplicates(Unmanaged(managed, cluster, refs))
  {
    if refs != [] {
      UnmanagedMembers(managed, cluster, refs[1..]);
      assert refs == [refs[0]] + refs[1..];
      assert NoDuplicates(refs) ==> NoDuplicates(refs[1..]);
    }
  }

  lemma {:induction false} UnreportedMembers(cfg: Config, p: Pass, cluster: ObjectReference, refs: seq<TypedRef>)
    ensures forall r :: r in Unreported(cfg, p, cluster, refs) <==> r in refs && !Reported(cfg, p, Location(cluster, r))
    ensures NoDuplicates(refs) ==> NoDuplicates(Unreported(cfg, p, cluster, refs))
  {
    hide Reported;
    if refs != [] {
      UnreportedMembers(cfg, p, cluster, refs[1..]);
      assert refs == [refs[0]] + refs[1..];
      assert NoDuplicates(refs) ==> NoDuplicates(refs[1..]);
    }
  }

  lemma {:induction false} BucketsForMembers(cfg: Config, p: Pass, clusters: seq<ObjectReference>)
    ensures forall b :: b in BucketsFor(cfg, p, clusters) <==>
              b.cluster in clusters && !Vanished(p, b.cluster) && !Unhealthy(cfg, p, b.cluster)
              && b.refs == Unreported(cfg, p, b.cluster, Leftover(p, b.cluster))
  {
    hide Vanished, Unhealthy, Unreported, Leftover;
    if clusters != [] {
      BucketsForMembers(cfg, p, clusters[1..]);
    }
  }

  ghost predicate InBuckets(buckets: seq<Bucket>, l: Location) {
    exists b :: b in buckets && b.cluster == l.cluster && l.ref in b.refs
  }

  /** The plan holds exactly the obsolete entries: tracked, not synced in this pass, not on a vanished cluster, not on a cluster
      whose last condition of the pass is False (unless the replica is being deleted), and without a condition of their own. */
  lemma PlanIsExact(cfg: Config, p: Pass, l: Location)
    requires WellFormed(p.status)
    ensures InBuckets(BucketsFor(cfg, p, ClustersOf(Walk(p.status))), l) <==> IsObsolete(cfg, p, l)
    ensures l in Walk(p.status) <==> l in Tracked(p.status)
  {
    var walk := Walk(p.status);
    var buckets := BucketsFor(cfg, p, ClustersOf(walk));
    hide Vanished, Unhealthy, Reported, Tracked, WellFormed;
    WalkMembers(p.status);
    ClustersOfMembers(walk);
    RefsOnMembers(walk, l.cluster);
    UnmanagedMembers(p.managed, l.cluster, RefsOn(walk, l.cluster));
    UnreportedMembers(cfg, p, l.cluster, Leftover(p, l.cluster));
    BucketsForMembers(cfg, p, ClustersOf(walk));
    if IsObsolete(cfg, p, l) {
      var b := Bucket(l.cluster, Unreported(cfg, p, l.cluster, Leftover(p, l.cluster)));
      assert b in buckets;
    }
  }

  lemma {:induction false} ForgetRefsTracked(cluster: ObjectReference, refs: seq<TypedRef>, status: seq<Group>)
    requires WellFormed(status)
    ensures WellFormed(ForgetRefs(cluster, refs, status))
    ensures forall l :: l in Tracked(ForgetRefs(cluster, refs, status)) <==> l in Tracked(status) && !(l.cluster == cluster && l.ref in refs)
  {
    hide Tracked, WellFormed, RemovedAt;
    if refs != [] {
      RawRefinesSet(status, Location(cluster, refs[0]));
      ForgetRefsTracked(cluster, refs[1..], RemovedAt(status, Location(cluster, refs[0])));
    }
  }

  lemma {:induction false} ForgetTracked(p: Pass, clusters: seq<ObjectReference>, status: seq<Group>)
    requires WellFormed(status)
    ensures WellFormed(Forget(p, clusters, status))
    ensures forall l :: l in Tracked(Forget(p, clusters, status)) <==>
              l in Tracked(status) && !(l.cluster in clusters && Vanished(p, l.cluster) && l.ref in Leftover(p, l.cluster))
  {
    hide Tracked, WellFormed, Vanished, ForgetRefs, Leftover;
    if clusters != [] {
      var c := clusters[0];
      ForgetRefsTracked(c, Leftover(p, c), status);
      ForgetTracked(p, clusters[1..], if Vanished(p, c) then ForgetRefs(c, Leftover(p, c), status) else status);
    }
  }

  /** The plan forgets exactly the entries on vanished clusters that were not synced. */
  lemma PlanForgetsExactly(cfg: Config, s: State)
    requires WellFormed(s.pass.status)
    ensures var s' := PlanDeletion(cfg, s).0;
            && s' == s.(pass := s.pass.(status := s'.pass.status)) && WellFormed(s'.pass.status)
            && forall l :: l in Tracked(s'.pass.status) <==> l in Tracked(s.pass.status) && (l in s.pass.managed || !Vanished(s.pass, l.cluster))
  {
    var p := s.pass;
    var walk := Walk(p.status);
    var s' := PlanDeletion(cfg, s).0;
    hide Tracked, WellFormed, Vanished, Forget, BucketsFor;
    WalkMembers(p.status);
    ClustersOfMembers(walk);
    ForgetTracked(p, ClustersOf(walk), p.status);
    forall l ensures l in Tracked(s'.pass.status) <==> l in Tracked(p.status) && (l in p.managed || !Vanished(p, l.cluster)) {
      RefsOnMembers(walk, l.cluster);
      UnmanagedMembers(p.managed, l.cluster, RefsOn(walk, l.cluster));
    }
  }

  lemma {:induction false} TrackAllTracked(ls: seq<Location>, status: seq<Group>)
    requires WellFormed(status)
    ensures WellFormed(TrackAll(ls, status))
    ensures forall l :: l in Tracked(TrackAll(ls, status)) <==> l in Tracked(status) || l in ls
    ensures (forall l :: l in ls ==> l in Tracked(status)) ==> TrackAll(ls, status) == status
  {
    hide Tracked, WellFormed, AddedAt, HasAt;
    if ls != [] {
      RawRefinesSet(status, ls[0]);
      TrackAllTracked(ls[1..], AddedAt(status, ls[0]));
    }
  }
}
