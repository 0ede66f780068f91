/** The list in status.replicas (api/core/v1alpha1/utils.go): groups by type, edited in place. */
module StatusList {
  import opened Refs

  datatype CreatedResource = CreatedResource(cluster: Option<ObjectReference>, namespace: string, name: string)

  datatype Group = Group(gvk: GVK, resources: seq<CreatedResource>)

  function ClusterRefEqual(a: Option<ObjectReference>, b: Option<ObjectReference>): bool {
    if a.None? && b.None? then true
    else if a.None? || b.None? then false
    else a.value.name == b.value.name && a.value.namespace == b.value.namespace
  }

  /** The raw operations read an empty cluster reference as nil. */
  function Normalize(cluster: Option<ObjectReference>): Option<ObjectReference> {
    if cluster == Some(HOSTING) then None else cluster
  }

  function Resource(l: Location): CreatedResource {
    CreatedResource(Normalize(Some(l.cluster)), l.ref.namespace, l.ref.name)
  }

  function LocationOf(gvk: GVK, r: CreatedResource): Location {
    Location(if r.cluster.None? then HOSTING else r.cluster.value, TypedRef(gvk, r.namespace, r.name))
  }

  // ---- What the operations compute, on the value of the list ----

  function TypeIndex(gs: seq<Group>, gvk: GVK): (i: nat)
    ensures i <= |gs|
    ensures i < |gs| ==> gs[i].gvk == gvk
    ensures forall k :: 0 <= k < i ==> gs[k].gvk != gvk
  {
    if gs == [] || gs[0].gvk == gvk then 0 else TypeIndex(gs[1..], gvk) + 1
  }

  function Added(gs: seq<Group>, gvk: GVK, res: CreatedResource): seq<Group> {
    var i := TypeIndex(gs, gvk);
    if i == |gs| then gs + [Group(gvk, [res])]
    else if res in gs[i].resources then gs
    else gs[i := Group(gvk, gs[i].resources + [res])]
  }

  function WithoutFirst(rs: seq<CreatedResource>, res: CreatedResource): seq<CreatedResource> {
    var i := IndexOf(rs, res);
    if i == |rs| then rs else rs[..i] + rs[i + 1..]
  }

  function Removed(gs: seq<Group>, gvk: GVK, res: CreatedResource): seq<Group> {
    var i := TypeIndex(gs, gvk);
    if i == |gs| then gs else gs[i := Group(gvk, WithoutFirst(gs[i].resources, res))]
  }

  predicate Has(gs: seq<Group>, gvk: GVK, res: CreatedResource) {
    var i := TypeIndex(gs, gvk);
    i < |gs| && res in gs[i].resources
  }

  function Cleaned(gs: seq<Group>): seq<Group> {
    if gs == [] then [] else (if |gs[0].resources| > 0 then [gs[0]] else []) + Cleaned(gs[1..])
  }

  function AddedAt(gs: seq<Group>, l: Location): seq<Group> {
    Added(gs, l.ref.gvk, Resource(l))
  }

  function RemovedAt(gs: seq<Group>, l: Location): seq<Group> {
    Removed(gs, l.ref.gvk, Resource(l))
  }

  predicate HasAt(gs: seq<Group>, l: Location) {
    Has(gs, l.ref.gvk, Resource(l))
  }

  // ---- The set a list stands for ----

  ghost function Entries(gs: seq<Group>): set<(GVK, CreatedResource)> {
    set i, j | 0 <= i < |gs| && 0 <= j < |gs[i].resources| :: (gs[i].gvk, gs[i].resources[j])
  }

  ghost function Tracked(gs: seq<Group>): set<Location> {
    set e | e in Entries(gs) :: LocationOf(e.0, e.1)
  }

  /** Unique types, unique entries, and no empty cluster reference other than nil. */
  ghost predicate WellFormed(gs: seq<Group>) {
    DistinctTypes(gs) && forall i :: 0 <= i < |gs| ==> GroupOk(gs[i])
  }

  lemma ClusterRefEqualIsEquality(a: Option<ObjectReference>, b: Option<ObjectReference>)
    ensures ClusterRefEqual(a, b) <==> a == b
  {}

  lemma EntryIn(gs: seq<Group>, i: nat, r: CreatedResource)
    requires i < |gs| && r in gs[i].resources
    ensures (gs[i].gvk, r) in Entries(gs)
  {
    var j :| 0 <= j < |gs[i].resources| && gs[i].resources[j] == r;
  }

  lemma EntryAt(gs: seq<Group>, e: (GVK, CreatedResource))
    requires WellFormed(gs)
    ensures e in Entries(gs) <==> Has(gs, e.0, e.1)
  {
    if e in Entries(gs) {
      var i, j :| 0 <= i < |gs| && 0 <= j < |gs[i].resources| && e == (gs[i].gvk, gs[i].resources[j]);
      var k := TypeIndex(gs, e.0);
      assert k == i;
    }
    if Has(gs, e.0, e.1) {
      EntryIn(gs, TypeIndex(gs, e.0), e.1);
    }
  }

  /** With distinct types, the first group of a type is the only one. */
  lemma TypeIndexOf(gs: seq<Group>, i: nat)
    requires DistinctTypes(gs) && i < |gs|
    ensures TypeIndex(gs, gs[i].gvk) == i
  {}

  lemma HasInGroup(gs: seq<Group>, g: Group, res: CreatedResource)
    requires DistinctTypes(gs) && g in gs && res in g.resources
    ensures Has(gs, g.gvk, res)
  {
    var i :| 0 <= i < |gs| && gs[i] == g;
    TypeIndexOf(gs, i);
  }

  lemma AddKeepsWellFormed(gs: seq<Group>, gvk: GVK, res: CreatedResource)
    requires WellFormed(gs) && res.cluster != Some(HOSTING)
    ensures WellFormed(Added(gs, gvk, res))
  {
    var gs' := Added(gs, gvk, res);
    var k := TypeIndex(gs, gvk);
    if k < |gs| {
      assert GroupOk(gs[k]);
    }
    assert GroupOk(gs'[k]);
  }

  lemma HasAdded(gs: seq<Group>, gvk: GVK, res: CreatedResource, e: (GVK, CreatedResource))
    requires WellFormed(gs) && WellFormed(Added(gs, gvk, res))
    ensures Has(Added(gs, gvk, res), e.0, e.1) <==> Has(gs, e.0, e.1) || e == (gvk, res)
  {
    var gs' := Added(gs, gvk, res);
    TypeIndexOf(gs', TypeIndex(gs, gvk));
    if e.0 != gvk {
      SameTypeIndex(gs, gs', e.0);
    }
  }

  /** Add inserts into the set. */
  lemma AddInserts(gs: seq<Group>, gvk: GVK, res: CreatedResource)
    requires WellFormed(gs) && res.cluster != Some(HOSTING)
    ensures WellFormed(Added(gs, gvk, res))
    ensures Entries(Added(gs, gvk, res)) == Entries(gs) + {(gvk, res)}
  {
    AddKeepsWellFormed(gs, gvk, res);
    forall e ensures e in Entries(Added(gs, gvk, res)) <==> e in Entries(gs) + {(gvk, res)} {
      EntryAt(gs, e);
      EntryAt(Added(gs, gvk, res), e);
      HasAdded(gs, gvk, res, e);
    }
  }

  lemma SameTypeIndex(gs: seq<Group>, gs': seq<Group>, gvk: GVK)
    requires |gs| <= |gs'| && forall i :: 0 <= i < |gs| ==> gs'[i].gvk == gs[i].gvk
    requires forall i :: |gs| <= i < |gs'| ==> gs'[i].gvk != gvk
    ensures TypeIndex(gs, gvk) < |gs| ==> TypeIndex(gs', gvk) == TypeIndex(gs, gvk)
    ensures TypeIndex(gs, gvk) == |gs| ==> TypeIndex(gs', gvk) == |gs'|
  {}

  lemma WithoutFirstRemoves(rs: seq<CreatedResource>, res: CreatedResource)
    requires NoDuplicates(rs)
    ensures NoDuplicates(WithoutFirst(rs, res))
    ensures forall r :: r in WithoutFirst(rs, res) <==> r in rs && r != res
  {
    var i := IndexOf(rs, res);
    if i < |rs| {
      var rs' := rs[..i] + rs[i + 1..];
      forall r ensures r in rs' <==> r in rs && r != res {
        if r in rs && r != res {
          var k :| 0 <= k < |rs| && rs[k] == r;
          assert rs'[if k < i then k else k - 1] == r;
        }
      }
    }
  }

  /** Remove deletes from the set. */
  lemma RemoveDeletes(gs: seq<Group>, gvk: GVK, res: CreatedResource)
    requires WellFormed(gs)
    ensures WellFormed(Removed(gs, gvk, res))
    ensures Entries(Removed(gs, gvk, res)) == Entries(gs) - {(gvk, res)}
  {
    var gs' := Removed(gs, gvk, res);
    var k := TypeIndex(gs, gvk);
    if k < |gs| {
      assert GroupOk(gs[k]);
      WithoutFirstRemoves(gs[k].resources, res);
    }
    assert WellFormed(gs');
    forall e ensures e in Entries(gs') <==> e in Entries(gs) - {(gvk, res)} {
      EntryAt(gs, e);
      EntryAt(gs', e);
      SameTypeIndex(gs, gs', e.0);
    }
  }

  /** Contains is membership. */
  lemma ContainsIsMember(gs: seq<Group>, gvk: GVK, res: CreatedResource)
    requires WellFormed(gs)
    ensures Has(gs, gvk, res) <==> (gvk, res) in Entries(gs)
  {
    EntryAt(gs, (gvk, res));
  }

  lemma {:induction false} CleanedMembers(gs: seq<Group>)
    ensures forall g :: g in Cleaned(gs) <==> g in gs && g.resources != []
    ensures (forall g :: g in gs ==> g.resources != []) ==> Cleaned(gs) == gs
  {
    if gs != [] {
      CleanedMembers(gs[1..]);
      assert gs == [gs[0]] + gs[1..];
    }
  }

  lemma {:induction false} CleanedSplit(a: seq<Group>, g: Group)
    ensures Cleaned(a + [g]) == Cleaned(a) + (if |g.resources| > 0 then [g] else [])
  {
    if a == [] {
      assert a + [g] == [g];
    } else {
      assert (a + [g])[1..] == a[1..] + [g];
      CleanedSplit(a[1..], g);
    }
  }

  ghost predicate DistinctTypes(gs: seq<Group>) {
    forall i, j :: 0 <= i < j < |gs| ==> gs[i].gvk != gs[j].gvk
  }

  lemma {:induction false} CleanedDistinct(gs: seq<Group>)
    requires DistinctTypes(gs)
    ensures DistinctTypes(Cleaned(gs))
  {
    if gs != [] {
      var rest := gs[1..];
      assert forall i :: 0 <= i < |rest| ==> rest[i] == gs[i + 1];
      CleanedDistinct(rest);
      CleanedMembers(rest);
    }
  }

  ghost predicate GroupOk(g: Group) {
    NoDuplicates(g.resources) && forall r :: r in g.resources ==> r.cluster != Some(HOSTING)
  }

  /** The entry taken out, and all others in their order. */
  ghost predicate IsWithout(rs: seq<CreatedResource>, res: CreatedResource, rest: seq<CreatedResource>) {
    if res in rs then exists i :: 0 <= i < |rs| && rs[i] == res && rest == rs[..i] + rs[i + 1..] else rest == rs
  }

  /** The order of the list: an entry that is there already changes nothing, a new one comes last in the group of its type, and a new type
      comes last. Removing leaves the order of the rest, and groups that become empty stay until the cleanup, which keeps the order, too. */
  lemma EditsKeepOrder(gs: seq<Group>, gvk: GVK, res: CreatedResource, last: Group)
    requires WellFormed(gs)
    ensures (gvk, res) in Entries(gs) ==> Added(gs, gvk, res) == gs
    ensures (gvk, res) !in Entries(gs) && (exists g :: g in gs && g.gvk == gvk) ==>
              && |Added(gs, gvk, res)| == |gs|
              && forall i :: 0 <= i < |gs| ==>
                   Added(gs, gvk, res)[i] == if gs[i].gvk == gvk then Group(gvk, gs[i].resources + [res]) else gs[i]
    ensures (forall g :: g in gs ==> g.gvk != gvk) ==> Added(gs, gvk, res) == gs + [Group(gvk, [res])]
    ensures |Removed(gs, gvk, res)| == |gs|
    ensures forall i :: 0 <= i < |gs| ==>
              && Removed(gs, gvk, res)[i].gvk == gs[i].gvk
              && if gs[i].gvk == gvk then IsWithout(gs[i].resources, res, Removed(gs, gvk, res)[i].resources) else Removed(gs, gvk, res)[i] == gs[i]
    ensures Cleaned(gs + [last]) == Cleaned(gs) + (if last.resources == [] then [] else [last])
  {
    EntryAt(gs, (gvk, res));
    CleanedSplit(gs, last);
    hide Cleaned;
    var k := TypeIndex(gs, gvk);
    if k < |gs| {
      assert gs[k] in gs;
    }
  }

  /** Cleanup keeps the set and drops exactly the empty groups. */
  lemma CleanupKeepsSet(gs: seq<Group>)
    requires WellFormed(gs)
    ensures WellFormed(Cleaned(gs))
    ensures Entries(Cleaned(gs)) == Entries(gs)
    ensures forall g :: g in Cleaned(gs) <==> g in gs && g.resources != []
    ensures Cleaned(gs) == [] <==> Entries(gs) == {}
  {
    CleanedMembers(gs);
    CleanedDistinct(gs);
    var c := Cleaned(gs);
    assert WellFormed(c) by {
      forall i | 0 <= i < |c| ensures GroupOk(c[i]) {
        assert c[i] in gs;
      }
    }
    forall e ensures e in Entries(c) <==> e in Entries(gs) {
      EntryAt(gs, e);
      EntryAt(c, e);
      if Has(gs, e.0, e.1) {
        HasInGroup(c, gs[TypeIndex(gs, e.0)], e.1);
      }
      if Has(c, e.0, e.1) {
        HasInGroup(gs, c[TypeIndex(c, e.0)], e.1);
      }
    }
    if c != [] {
      assert c[0] in c;
      EntryIn(c, 0, c[0].resources[0]);
    }
  }

  // ---- The same by location, for the raw forms ----

  lemma TrackedAt(gs: seq<Group>, l: Location)
    requires WellFormed(gs)
    ensures l in Tracked(gs) <==> (l.ref.gvk, Resource(l)) in Entries(gs)
    ensures l in Tracked(gs) <==> HasAt(gs, l)
  {
    var e := (l.ref.gvk, Resource(l));
    EntryAt(gs, e);
    if l in Tracked(gs) {
      var d :| d in Entries(gs) && LocationOf(d.0, d.1) == l;
      EntryAt(gs, d);
      assert GroupOk(gs[TypeIndex(gs, d.0)]);
      assert d.1.cluster != Some(HOSTING);
      assert d == e;
    }
    assert LocationOf(e.0, e.1) == l;
  }

  lemma SameEntriesSameTracked(gs: seq<Group>, gs': seq<Group>, l: Location)
    requires WellFormed(gs) && WellFormed(gs')
    ensures Entries(gs') == Entries(gs) ==> (l in Tracked(gs') <==> l in Tracked(gs))
    ensures Entries(gs') == Entries(gs) + {(l.ref.gvk, Resource(l))} ==> Tracked(gs') == Tracked(gs) + {l}
    ensures Entries(gs') == Entries(gs) - {(l.ref.gvk, Resource(l))} ==> Tracked(gs') == Tracked(gs) - {l}
  {
    forall k: Location
      ensures k in Tracked(gs) <==> (k.ref.gvk, Resource(k)) in Entries(gs)
      ensures k in Tracked(gs') <==> (k.ref.gvk, Resource(k)) in Entries(gs')
      ensures (k.ref.gvk, Resource(k)) == (l.ref.gvk, Resource(l)) <==> k == l
    {
      TrackedAt(gs, k);
      TrackedAt(gs', k);
      assert LocationOf(k.ref.gvk, Resource(k)) == k;
      assert LocationOf(l.ref.gvk, Resource(l)) == l;
    }
  }

  /** The raw forms insert, delete and test a location, an empty cluster reference meaning the hosting cluster. */
  lemma RawRefinesSet(gs: seq<Group>, l: Location)
    requires WellFormed(gs)
    ensures WellFormed(AddedAt(gs, l)) && Tracked(AddedAt(gs, l)) == Tracked(gs) + {l}
    ensures WellFormed(RemovedAt(gs, l)) && Tracked(RemovedAt(gs, l)) == Tracked(gs) - {l}
    ensures HasAt(gs, l) <==> l in Tracked(gs)
    ensures HasAt(gs, l) ==> AddedAt(gs, l) == gs
  {
    AddInserts(gs, l.ref.gvk, Resource(l));
    RemoveDeletes(gs, l.ref.gvk, Resource(l));
    TrackedAt(gs, l);
    SameEntriesSameTracked(gs, AddedAt(gs, l), l);
    SameEntriesSameTracked(gs, RemovedAt(gs, l), l);
  }

  lemma CleanupKeepsTracked(gs: seq<Group>)
    requires WellFormed(gs)
    ensures WellFormed(Cleaned(gs)) && Tracked(Cleaned(gs)) == Tracked(gs)
    ensures Cleaned(gs) == [] <==> Tracked(gs) == {}
  {
    CleanupKeepsSet(gs);
    if Entries(gs) != {} {
      var e :| e in Entries(gs);
      assert LocationOf(e.0, e.1) in Tracked(gs);
    }
  }

  // ---- The list in the order the controller walks it ----

  function InOrder(gvk: GVK, rs: seq<CreatedResource>): seq<Location> {
    if rs == [] then [] else [LocationOf(gvk, rs[0])] + InOrder(gvk, rs[1..])
  }

  function Walk(gs: seq<Group>): seq<Location> {
    if gs == [] then [] else InOrder(gs[0].gvk, gs[0].resources) + Walk(gs[1..])
  }

  lemma {:induction false} InOrderMembers(gvk: GVK, rs: seq<CreatedResource>)
    ensures |InOrder(gvk, rs)| == |rs|
    ensures forall i :: 0 <= i < |rs| ==> InOrder(gvk, rs)[i] == LocationOf(gvk, rs[i])
  {
    if rs != [] {
      InOrderMembers(gvk, rs[1..]);
    }
  }

  /** An entry is in the first group or in the others. */
  lemma TrackedSplits(gs: seq<Group>, l: Location)
    requires gs != []
    ensures l in Tracked(gs) <==> (exists r :: r in gs[0].resources && LocationOf(gs[0].gvk, r) == l) || l in Tracked(gs[1..])
  {
    var rest := gs[1..];
    hide LocationOf;
    if l in Tracked(rest) {
      var e :| e in Entries(rest) && LocationOf(e.0, e.1) == l;
      var i, j :| 0 <= i < |rest| && 0 <= j < |rest[i].resources| && e == (rest[i].gvk, rest[i].resources[j]);
      assert gs[i + 1] == rest[i];
      EntryIn(gs, i + 1, e.1);
    }
    if r :| r in gs[0].resources && LocationOf(gs[0].gvk, r) == l {
      EntryIn(gs, 0, r);
    }
    if l in Tracked(gs) {
      var e :| e in Entries(gs) && LocationOf(e.0, e.1) == l;
      var i, j :| 0 <= i < |gs| && 0 <= j < |gs[i].resources| && e == (gs[i].gvk, gs[i].resources[j]);
      if i > 0 {
        assert rest[i - 1] == gs[i];
        EntryIn(rest, i - 1, e.1);
      }
    }
  }

  lemma {:induction false} WalkMembers(gs: seq<Group>)
    ensures forall l :: l in Walk(gs) <==> l in Tracked(gs)
  {
    if gs != [] {
      WalkMembers(gs[1..]);
      InOrderMembers(gs[0].gvk, gs[0].resources);
      forall l ensures l in Walk(gs) <==> l in Tracked(gs) {
        TrackedSplits(gs, l);
        hide Tracked, LocationOf;
        if l in InOrder(gs[0].gvk, gs[0].resources) {
          var j :| 0 <= j < |gs[0].resources| && InOrder(gs[0].gvk, gs[0].resources)[j] == l;
          assert gs[0].resources[j] in gs[0].resources;
        }
        if r :| r in gs[0].resources && LocationOf(gs[0].gvk, r) == l {
          var j :| 0 <= j < |gs[0].resources| && gs[0].resources[j] == r;
          assert InOrder(gs[0].gvk, gs[0].resources)[j] == l;
        }
      }
    }
  }

  /** One step of the compaction: entry r moves to w if it is to stay. */
  lemma CompactStep(gs: seq<Group>, was: seq<Group>, w: nat, r: nat)
    requires w <= r < |gs| == |was| && gs[..w] == Cleaned(was[..r]) && gs[r..] == was[r..]
    ensures if |gs[r].resources| > 0 then gs[w := gs[r]][..w + 1] == Cleaned(was[..r + 1]) else gs[..w] == Cleaned(was[..r + 1])
    ensures gs[r + 1..] == was[r + 1..] && gs[w := gs[r]][r + 1..] == was[r + 1..]
  {
    assert gs[r] == gs[r..][0] == was[r..][0] == was[r];
    assert was[..r + 1] == was[..r] + [was[r]];
    CleanedSplit(was[..r], was[r]);
    hide Cleaned;
    assert gs[w := gs[r]][..w + 1] == gs[..w] + [gs[r]];
    DropOne(gs, was, r);
    assert gs[w := gs[r]][r + 1..] == gs[r + 1..];
  }

  lemma DropOne<T>(a: seq<T>, b: seq<T>, r: nat)
    requires r < |a| == |b| && a[r..] == b[r..]
    ensures a[r + 1..] == b[r + 1..]
  {
    assert a[r + 1..] == a[r..][1..] && b[r + 1..] == b[r..][1..];
  }

  // ---- The operations, editing a list in place ----

  class CreatedResourcesWithTypeList {
    var groups: seq<Group>

    constructor (gs: seq<Group>)
      ensures groups == gs
    {
      groups := gs;
    }

    method Add(gvk: GVK, res: CreatedResource)
      modifies this
      ensures groups == Added(old(groups), gvk, res)
    {
      for i := 0 to |groups|
        invariant groups == old(groups)
        invariant forall k :: 0 <= k < i ==> groups[k].gvk != gvk
      {
        if groups[i].gvk == gvk {
          assert TypeIndex(groups, gvk) == i;
          for j := 0 to |groups[i].resources|
            invariant groups == old(groups)
            invariant forall k :: 0 <= k < j ==> groups[i].resources[k] != res
          {
            var existing := groups[i].resources[j];
            if existing.name == res.name && existing.namespace == res.namespace && ClusterRefEqual(existing.cluster, res.cluster) {
              ClusterRefEqualIsEquality(existing.cluster, res.cluster);
              return;
            }
            ClusterRefEqualIsEquality(existing.cluster, res.cluster);
          }
          groups := groups[i := Group(gvk, groups[i].resources + [res])];
          return;
        }
      }
      groups := groups + [Group(gvk, [res])];
    }

    method Remove(gvk: GVK, res: CreatedResource)
      modifies this
      ensures groups == Removed(old(groups), gvk, res)
    {
      for i := 0 to |groups|
        invariant groups == old(groups)
        invariant forall k :: 0 <= k < i ==> groups[k].gvk != gvk
      {
        if groups[i].gvk == gvk {
          assert TypeIndex(groups, gvk) == i;
          var rs := groups[i].resources;
          for j := 0 to |rs|
            invariant groups == old(groups)
            invariant forall k :: 0 <= k < j ==> rs[k] != res
          {
            ClusterRefEqualIsEquality(rs[j].cluster, res.cluster);
            if rs[j].name == res.name && rs[j].namespace == res.namespace && ClusterRefEqual(rs[j].cluster, res.cluster) {
              assert IndexOf(rs, res) == j;
              groups := groups[i := Group(gvk, rs[..j] + rs[j + 1..])];
              return;
            }
          }
          assert groups[i := Group(gvk, rs)] == groups;
          return;
        }
      }
    }

    method Contains(gvk: GVK, res: CreatedResource) returns (found: bool)
      ensures found <==> Has(groups, gvk, res)
    {
      for i := 0 to |groups|
        invariant forall k :: 0 <= k < i ==> groups[k].gvk != gvk
      {
        if groups[i].gvk == gvk {
          assert TypeIndex(groups, gvk) == i;
          for j := 0 to |groups[i].resources|
            invariant forall k :: 0 <= k < j ==> groups[i].resources[k] != res
          {
            var existing := groups[i].resources[j];
            ClusterRefEqualIsEquality(existing.cluster, res.cluster);
            if existing.name == res.name && existing.namespace == res.namespace && ClusterRefEqual(existing.cluster, res.cluster) {
              return true;
            }
          }
          return false;
        }
      }
      return false;
    }

    method AddRaw(gvk: GVK, namespace: string, name: string, cluster: Option<ObjectReference>)
      modifies this
      ensures groups == Added(old(groups), gvk, CreatedResource(Normalize(cluster), namespace, name))
    {
      var cluster' := cluster;
      if cluster'.Some? && cluster'.value.namespace == "" && cluster'.value.name == "" {
        cluster' := None;
      }
      Add(gvk, CreatedResource(cluster', namespace, name));
    }

    method RemoveRaw(gvk: GVK, namespace: string, name: string, cluster: Option<ObjectReference>)
      modifies this
      ensures groups == Removed(old(groups), gvk, CreatedResource(Normalize(cluster), namespace, name))
    {
      var cluster' := cluster;
      if cluster'.Some? && cluster'.value.namespace == "" && cluster'.value.name == "" {
        cluster' := None;
      }
      Remove(gvk, CreatedResource(cluster', namespace, name));
    }

    method ContainsRaw(gvk: GVK, namespace: string, name: string, cluster: Option<ObjectReference>) returns (found: bool)
      ensures found <==> Has(groups, gvk, CreatedResource(Normalize(cluster), namespace, name))
    {
      var cluster' := cluster;
      if cluster'.Some? && cluster'.value.namespace == "" && cluster'.value.name == "" {
        cluster' := None;
      }
      found := Contains(gvk, CreatedResource(cluster', namespace, name));
    }

    /** Compaction within the same backing store: the write position never passes the read position. */
    method Cleanup()
      modifies this
      ensures groups == Cleaned(old(groups))
    {
      ghost var was := groups;
      var n := |groups|;
      var w := 0;
      for r := 0 to n
        invariant w <= r <= n == |groups| == |was|
        invariant groups[..w] == Cleaned(was[..r])
        invariant groups[r..] == was[r..]
      {
        var entry := groups[r];
        CompactStep(groups, was, w, r);
        if |entry.resources| > 0 {
          groups := groups[w := entry];
          w := w + 1;
        }
      }
      assert was[..n] == was;
      groups := groups[..w];
    }
  }
}
