/** A copy next to a Cluster that is still wanted but could not be updated: the same pass deletes it. */
module UnsyncedExample {
  import opened Refs
  import opened StatusList
  import opened Objects
  import opened Targets
  import opened Steps
  import opened System
  import opened EventRuns

  const LOST_WRITE := GOOD.(write := Lost)

  /** The copy is there and tracked. */
  const WITH_COPY := World(map[AT := COPIED], W.namespaces)
  const BASE := Waiting([FIRST], [NEXT_TO], WITH_COPY, ENTRY)

  /** The update of the copy fails; then the plan, the choice of a cluster, and its one obsolete copy. */
  const EVENTS: seq<Event> := [
    Reconcile(ID, GOOD), Advance(ID, GOOD), Advance(ID, GOOD), Advance(ID, LOST_WRITE),
    Advance(ID, GOOD), Advance(ID, GOOD), Advance(ID, GOOD), Advance(ID, GOOD), Advance(ID, GOOD)]

  const Q0 := NewPass(ID, BASE.replicas[ID], [FIRST])
  const Q3 := Q0.(clock := 3, errors := 1, seen := map[KEY1 := "raw"], renderings := [(KEY1, "raw")], reached := [KEY1],
    conditions := [TargetCondition("a", false, Failed)])
  const Q4 := Left(Q3, FIRST)

  const CLOSING: seq<Task> := [CloseCluster(Some(FIRST))] + LAST
  function At(agenda: seq<Task>, p: Pass): System {
    During(BASE, agenda, p, WITH_COPY, ENTRY)
  }

  const S1 := At([Definition(NEXT_TO)] + LAST, Q0)
  const S2 := At([OpenCluster(NEXT_TO, Some(FIRST))] + LAST, Q0.(clock := 1))
  const S3 := At([Target(NEXT_TO, Some(FIRST), "ns")] + CLOSING, Q0.(clock := 2))
  const S4 := At(CLOSING, Q3)
  const S5 := At(LAST, Q4)
  const S6 := At([Obsolete([Bucket(HOSTING, [AT.ref])])] + REST, Q4.(clock := 5))
  const S7 := At([OpenBucket(Bucket(HOSTING, [AT.ref]))] + EMPTY, Q4.(clock := 6))
  const S8 := At([Delete(AT)] + EMPTY, Q4.(clock := 7))

  lemma Looped()
    ensures Leads(BASE, Reconcile(ID, GOOD), S1) && Leads(S1, Advance(ID, GOOD), S2) && Leads(S2, Advance(ID, GOOD), S3)
  {
    Begun([FIRST], NEXT_TO, WITH_COPY, ENTRY);
    assert [FIRST][1..] == [] && MatchedClusters(CONFIG, NEXT_TO, []) == [];
    Entered(BASE, NEXT_TO, LAST, Q0, WITH_COPY, ENTRY);
    OpenedAt(BASE, NEXT_TO, FIRST, LAST, Q0.(clock := 1), WITH_COPY, ENTRY);
  }

  /** The target is tracked and the replica's own, so it is updated, in vain. */
  lemma NotUpdated()
    ensures Leads(S3, Advance(ID, LOST_WRITE), S4)
  {
    var s := State(WITH_COPY, ENTRY, Q0.(clock := 2));
    assert HasAt(ENTRY, AT);
    CopyIsOurs();
    assert HandleTarget(CONFIG, LOST_WRITE, NEXT_TO, Some(FIRST), "ns", s) == State(WITH_COPY, ENTRY, Q3.(clock := 2));
    Stepped(BASE, LOST_WRITE, Target(NEXT_TO, Some(FIRST), "ns"), CLOSING, Q0.(clock := 2), WITH_COPY, ENTRY, Q3, WITH_COPY, ENTRY, []);
    assert [] + CLOSING == CLOSING;
  }

  /** Nothing excuses the copy: it was not synced, and the condition of the failure has another name. */
  lemma IsPlanned()
    ensures Walk(ENTRY) == [AT] && IsObsolete(CONFIG, Q4, AT)
  {
    assert !Reported(CONFIG, Q4, AT) by {
      assert |"a"| == 1;
    }
    NoHostingCondition();
  }

  lemma NoHostingCondition()
    ensures LastClusterCondition(Q4.conditions, "") == None
  {
    var c := Q4.conditions;
    assert c == [TargetCondition("a", false, Failed), ClusterCondition("a", true)];
    assert c[..1] == [TargetCondition("a", false, Failed)] && c[..1][..0] == [];
    assert |"a"| == 1;
    assert LastClusterCondition(c[..1][..0], "") == None;
    assert LastClusterCondition(c[..1], "") == None;
  }

  lemma NineSteps(s1: System, s2: System, s3: System, s4: System, s5: System, s6: System, s7: System, s8: System, s9: System)
    requires Leads(BASE, Reconcile(ID, GOOD), s1) && Leads(s1, Advance(ID, GOOD), s2) && Leads(s2, Advance(ID, GOOD), s3)
    requires Leads(s3, Advance(ID, LOST_WRITE), s4) && Leads(s4, Advance(ID, GOOD), s5) && Leads(s5, Advance(ID, GOOD), s6)
    requires Leads(s6, Advance(ID, GOOD), s7) && Leads(s7, Advance(ID, GOOD), s8) && Leads(s8, Advance(ID, GOOD), s9)
    ensures CanHappen(CONFIG, BASE, EVENTS) && After(CONFIG, BASE, EVENTS) == s9
  {
    hide Leads;
    ChainRuns([BASE, s1, s2, s3, s4, s5, s6, s7, s8, s9], EVENTS);
  }

  lemma Ended() returns (last: System)
    ensures Leads(S4, Advance(ID, GOOD), S5) && Leads(S5, Advance(ID, GOOD), S6) && Leads(S6, Advance(ID, GOOD), S7)
    ensures Leads(S7, Advance(ID, GOOD), S8) && Leads(S8, Advance(ID, GOOD), last)
    ensures last.world.objects == map[AT := COPIED.(inDeletion := true)]
  {
    IsPlanned();
    hide IsObsolete, Leads, Walk;
    ClosedAt(BASE, FIRST, LAST, Q3, WITH_COPY, ENTRY);
    PlansOne(BASE, Q4, WITH_COPY, AT);
    ChoosesOne(BASE, Q4.(clock := 5), WITH_COPY, ENTRY, AT);
    OpensOne(BASE, Q4.(clock := 6), WITH_COPY, ENTRY, AT);
    last := DeletesOne(BASE, Q4.(clock := 7), WITH_COPY, ENTRY, AT);
  }

  /** A run with one failing call, the update of a copy that is wanted next to a Cluster and was fine before, that deletes the copy. */
  lemma FailedUpdateDeletes()
    ensures WITH_COPY.objects == map[AT := COPIED] && !COPIED.inDeletion
    ensures CanHappen(CONFIG, BASE, EVENTS) && After(CONFIG, BASE, EVENTS).world.objects == map[AT := COPIED.(inDeletion := true)]
  {
    hide Leads, CanHappen, After, At, During;
    Looped();
    NotUpdated();
    var last := Ended();
    NineSteps(S1, S2, S3, S4, S5, S6, S7, S8, last);
  }
}
