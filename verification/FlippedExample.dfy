/** Two definitions on one Cluster: the namespaces cannot be listed for the first, but the second one closes the Cluster as healthy, and the
    copies of the first are deleted. */
module FlippedExample {
  import opened Refs
  import opened StatusList
  import opened Objects
  import opened Targets
  import opened Steps
  import opened System
  import opened EventRuns

  /** All namespaces of the Cluster, by their labels; and none of them, by identity. */
  const BY_LABELS := TargetDefinition(Some(ClusterTarget(None, false)), Some(NamespaceSelector(None, LabelSelector(None, []))), Fail, Create)
  const BY_NAME := TargetDefinition(Some(ClusterTarget(None, false)), Some(NamespaceSelector(Some([]), LabelSelector(None, []))), Fail, Create)

  const NO_LIST := GOOD.(list := false)

  const ON := Location(FIRST.ref, COPY.(namespace := "there"))
  const ON_ENTRY := [Group(ON.ref.gvk, [CreatedResource(Some(FIRST.ref), "there", "copy")])]
  const WITH_COPY := World(map[ON := COPIED], map[(FIRST.ref, "there") := Namespace(map[], false)])
  const BASE := Waiting([FIRST], [BY_LABELS, BY_NAME], WITH_COPY, ON_ENTRY)

  const EVENTS: seq<Event> := [
    Reconcile(ID, GOOD), Advance(ID, GOOD), Advance(ID, NO_LIST), Advance(ID, GOOD), Advance(ID, GOOD),
    Advance(ID, GOOD), Advance(ID, GOOD), Advance(ID, GOOD), Advance(ID, GOOD), Advance(ID, GOOD)]

  const Q0 := NewPass(ID, BASE.replicas[ID], [FIRST])
  const Q2 := Q0.(clock := 2, errors := 1, conditions := [ClusterCondition("a", false)])
  const Q5 := Left(Q2.(clock := 4), FIRST)

  function At(agenda: seq<Task>, p: Pass): System {
    During(BASE, agenda, p, WITH_COPY, ON_ENTRY)
  }

  const NEXT: seq<Task> := [Definition(BY_NAME)] + LAST
  const S1 := At([Definition(BY_LABELS)] + NEXT, Q0)
  const S2 := At([OpenCluster(BY_LABELS, Some(FIRST))] + NEXT, Q0.(clock := 1))
  const S3 := At(NEXT, Q2)
  const S4 := At([OpenCluster(BY_NAME, Some(FIRST))] + LAST, Q2.(clock := 3))
  const S5 := At([CloseCluster(Some(FIRST))] + LAST, Q2.(clock := 4))
  const S6 := At(LAST, Q5)
  const S7 := At([Obsolete([Bucket(FIRST.ref, [ON.ref])])] + REST, Q5.(clock := 6))
  const S8 := At([OpenBucket(Bucket(FIRST.ref, [ON.ref]))] + EMPTY, Q5.(clock := 7))
  const S9 := At([Delete(ON)] + EMPTY, Q5.(clock := 8))

  lemma BothBegun()
    ensures Leads(BASE, Reconcile(ID, GOOD), S1)
  {
    assert [BY_LABELS, BY_NAME][1..] == [BY_NAME] && [BY_NAME][1..] == [];
    assert DefinitionTasks([BY_NAME]) == [Definition(BY_NAME)];
    assert DefinitionTasks([BY_LABELS, BY_NAME]) == [Definition(BY_LABELS)] + [Definition(BY_NAME)];
    assert [Definition(BY_LABELS)] + [Definition(BY_NAME)] + [Plan, Cleanup] + [UpdateStatus] == [Definition(BY_LABELS)] + NEXT;
  }

  lemma BothEntered()
    ensures Leads(S1, Advance(ID, GOOD), S2) && Leads(S3, Advance(ID, GOOD), S4)
  {
    assert [FIRST][1..] == [] && MatchedClusters(CONFIG, BY_LABELS, []) == [] && MatchedClusters(CONFIG, BY_NAME, []) == [];
    Entered(BASE, BY_LABELS, NEXT, Q0, WITH_COPY, ON_ENTRY);
    Entered(BASE, BY_NAME, LAST, Q2, WITH_COPY, ON_ENTRY);
  }

  lemma NotListed()
    ensures Leads(S2, Advance(ID, NO_LIST), S3)
  {
    var s := State(WITH_COPY, ON_ENTRY, Q0.(clock := 1));
    assert Q0.conditions + [ClusterCondition("a", false)] == Q2.conditions;
    assert ResolveNamespaces(CONFIG, NO_LIST, BY_LABELS, Some(FIRST), s) == (State(WITH_COPY, ON_ENTRY, Q2.(clock := 1)), []);
    Stepped(BASE, NO_LIST, OpenCluster(BY_LABELS, Some(FIRST)), NEXT, Q0.(clock := 1), WITH_COPY, ON_ENTRY, Q2, WITH_COPY, ON_ENTRY, []);
    assert [] + NEXT == NEXT;
  }

  lemma OpenedAndClosed()
    ensures Leads(S4, Advance(ID, GOOD), S5) && Leads(S5, Advance(ID, GOOD), S6)
  {
    assert TargetTasks(BY_NAME, Some(FIRST), []) == [];
    assert ClusterTasks(BY_NAME, Some(FIRST), []) == [CloseCluster(Some(FIRST))];
    Stepped(BASE, GOOD, OpenCluster(BY_NAME, Some(FIRST)), LAST, Q2.(clock := 3), WITH_COPY, ON_ENTRY,
            Q2.(clock := 4), WITH_COPY, ON_ENTRY, [CloseCluster(Some(FIRST))]);
    ClosedAt(BASE, FIRST, LAST, Q2.(clock := 4), WITH_COPY, ON_ENTRY);
  }

  lemma IsPlanned()
    ensures Walk(ON_ENTRY) == [ON] && IsObsolete(CONFIG, Q5, ON)
  {
    var r := CreatedResource(Some(FIRST.ref), "there", "copy");
    assert [r][1..] == [] && InOrder(ON.ref.gvk, []) == [] && InOrder(ON.ref.gvk, [r]) == [ON];
    assert ON_ENTRY[1..] == [] && Walk([]) == [] && Walk(ON_ENTRY) == [ON] + [];
    var c := Q5.conditions;
    assert c == [ClusterCondition("a", false), ClusterCondition("a", true)];
    assert LastClusterCondition(c, "a") == Some(true);
    assert FIRST in Q5.clusters;
    assert forall x :: x in c ==> !x.TargetCondition?;
  }

  lemma Ended() returns (last: System)
    ensures Leads(S6, Advance(ID, GOOD), S7) && Leads(S7, Advance(ID, GOOD), S8) && Leads(S8, Advance(ID, GOOD), S9)
    ensures Leads(S9, Advance(ID, GOOD), last) && last.world.objects == map[ON := COPIED.(inDeletion := true)]
  {
    IsPlanned();
    hide IsObsolete, Leads, Walk;
    PlansOne(BASE, Q5, WITH_COPY, ON);
    ChoosesOne(BASE, Q5.(clock := 6), WITH_COPY, ON_ENTRY, ON);
    OpensOne(BASE, Q5.(clock := 7), WITH_COPY, ON_ENTRY, ON);
    last := DeletesOne(BASE, Q5.(clock := 8), WITH_COPY, ON_ENTRY, ON);
  }

  lemma TenSteps(s1: System, s2: System, s3: System, s4: System, s5: System, s6: System, s7: System, s8: System, s9: System, s10: System)
    requires Leads(BASE, Reconcile(ID, GOOD), s1) && Leads(s1, Advance(ID, GOOD), s2) && Leads(s2, Advance(ID, NO_LIST), s3)
    requires Leads(s3, Advance(ID, GOOD), s4) && Leads(s4, Advance(ID, GOOD), s5) && Leads(s5, Advance(ID, GOOD), s6)
    requires Leads(s6, Advance(ID, GOOD), s7) && Leads(s7, Advance(ID, GOOD), s8) && Leads(s8, Advance(ID, GOOD), s9)
    requires Leads(s9, Advance(ID, GOOD), s10)
    ensures CanHappen(CONFIG, BASE, EVENTS) && After(CONFIG, BASE, EVENTS) == s10
  {
    hide Leads;
    ChainRuns([BASE, s1, s2, s3, s4, s5, s6, s7, s8, s9, s10], EVENTS);
  }

  /** FailedClusterIsSpared needs that the Cluster is not closed later: a run in which the listing of its namespaces fails for one definition,
      another definition closes it, and the copy of the first is deleted. */
  lemma OtherDefinitionFlips()
    ensures WITH_COPY.objects == map[ON := COPIED] && !COPIED.inDeletion
    ensures CanHappen(CONFIG, BASE, EVENTS) && After(CONFIG, BASE, EVENTS).world.objects == map[ON := COPIED.(inDeletion := true)]
  {
    hide Leads, CanHappen, After, At, During;
    BothBegun();
    BothEntered();
    NotListed();
    OpenedAndClosed();
    var last := Ended();
    TenSteps(S1, S2, S3, S4, S5, S6, S7, S8, S9, last);
  }
}
