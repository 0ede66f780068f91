/** A copy wanted next to a Cluster and another wanted onto it: the one next to it comes first, and the one onto the Cluster is taken for
    a copy of it and never written. */
module CopyExample {
  import opened Refs
  import opened StatusList
  import opened Objects
  import opened Targets
  import opened Steps
  import opened System
  import opened EventRuns

  /** Onto the Cluster, in the namespace that the copy next to it has. */
  const ONTO := TargetDefinition(Some(ClusterTarget(None, false)), Some(NamespaceSelector(Some(["ns"]), LabelSelector(None, []))), Fail, Create)

  const BOTH := Waiting([FIRST], [NEXT_TO, ONTO], W, [])

  const EVENTS: seq<Event> := [
    Reconcile(ID, GOOD), Advance(ID, GOOD), Advance(ID, GOOD), Advance(ID, GOOD),
    Advance(ID, GOOD), Advance(ID, GOOD), Advance(ID, GOOD), Advance(ID, GOOD)]

  const Q0 := NewPass(ID, BOTH.replicas[ID], [FIRST])
  const COPIED := Copy(CONFIG, Q0, BLANK)
  const WITH_COPY := World(map[AT := COPIED], W.namespaces)
  const Q3 := Q0.(clock := 3, status := ENTRY, oldStatus := ENTRY, managed := [AT], seen := map[KEY1 := "raw"],
    renderings := [(KEY1, "raw")], reached := [KEY1], conditions := [TargetCondition("a", true, Synced)])
  const Q4 := Left(Q3, FIRST)
  const Q7 := Q4.(clock := 7, renderings := Q4.renderings + [(KEY1, "raw")],
    conditions := Q4.conditions + [TargetCondition("a", true, IdenticalCopy)])

  const ON_REST: seq<Task> := [Definition(ONTO)] + LAST
  const CLOSE_REST: seq<Task> := [CloseCluster(Some(FIRST))] + ON_REST
  const CLOSING: seq<Task> := [CloseCluster(Some(FIRST))] + LAST

  const S1 := During(BOTH, [Definition(NEXT_TO)] + ON_REST, Q0, W, [])
  const S2 := During(BOTH, [OpenCluster(NEXT_TO, Some(FIRST))] + ON_REST, Q0.(clock := 1), W, [])
  const S3 := During(BOTH, [Target(NEXT_TO, Some(FIRST), "ns")] + CLOSE_REST, Q0.(clock := 2), W, [])
  const S4 := During(BOTH, CLOSE_REST, Q3, WITH_COPY, ENTRY)
  const S5 := During(BOTH, ON_REST, Q4, WITH_COPY, ENTRY)
  const S6 := During(BOTH, [OpenCluster(ONTO, Some(FIRST))] + LAST, Q4.(clock := 5), WITH_COPY, ENTRY)
  const S7 := During(BOTH, [Target(ONTO, Some(FIRST), "ns")] + CLOSING, Q4.(clock := 6), WITH_COPY, ENTRY)
  const S8 := During(BOTH, CLOSING, Q7, WITH_COPY, ENTRY)

  lemma BothBegun()
    ensures Leads(BOTH, Reconcile(ID, GOOD), S1)
  {
    assert [NEXT_TO, ONTO][1..] == [ONTO] && [ONTO][1..] == [];
    assert DefinitionTasks([ONTO]) == [Definition(ONTO)];
    assert DefinitionTasks([NEXT_TO, ONTO]) == [Definition(NEXT_TO)] + [Definition(ONTO)];
    assert [Definition(NEXT_TO)] + [Definition(ONTO)] + [Plan, Cleanup] + [UpdateStatus] == [Definition(NEXT_TO)] + ON_REST;
  }

  lemma BothEntered()
    ensures Leads(S1, Advance(ID, GOOD), S2) && Leads(S5, Advance(ID, GOOD), S6)
  {
    assert [FIRST][1..] == [] && MatchedClusters(CONFIG, NEXT_TO, []) == [] && MatchedClusters(CONFIG, ONTO, []) == [];
    Entered(BOTH, NEXT_TO, ON_REST, Q0, W, []);
    Entered(BOTH, ONTO, LAST, Q4, WITH_COPY, ENTRY);
  }

  /** The copy next to the Cluster is written. */
  lemma WrittenBeside()
    ensures Leads(S3, Advance(ID, GOOD), S4)
  {
    var s := State(W, [], Q0.(clock := 2));
    assert AddedAt([], AT) == ENTRY;
    assert CreatedOrUpdated(None, COPIED) == COPIED;
    assert HandleTarget(CONFIG, GOOD, NEXT_TO, Some(FIRST), "ns", s) == State(WITH_COPY, ENTRY, Q3.(clock := 2));
    Stepped(BOTH, GOOD, Target(NEXT_TO, Some(FIRST), "ns"), CLOSE_REST, Q0.(clock := 2), W, [], Q3, WITH_COPY, ENTRY, []);
    assert [] + CLOSE_REST == CLOSE_REST;
  }

  /** The copy onto the Cluster is skipped. */
  lemma SkippedOnto()
    ensures Leads(S7, Advance(ID, GOOD), S8)
  {
    var s := State(WITH_COPY, ENTRY, Q4.(clock := 6));
    assert HandleTarget(CONFIG, GOOD, ONTO, Some(FIRST), "ns", s) == State(WITH_COPY, ENTRY, Q7.(clock := 6));
    Stepped(BOTH, GOOD, Target(ONTO, Some(FIRST), "ns"), CLOSING, Q4.(clock := 6), WITH_COPY, ENTRY, Q7, WITH_COPY, ENTRY, []);
    assert [] + CLOSING == CLOSING;
  }

  lemma BothOpened()
    ensures Leads(S2, Advance(ID, GOOD), S3) && Leads(S4, Advance(ID, GOOD), S5) && Leads(S6, Advance(ID, GOOD), S7)
  {
    OpenedAt(BOTH, NEXT_TO, FIRST, ON_REST, Q0.(clock := 1), W, []);
    ClosedAt(BOTH, FIRST, ON_REST, Q3, WITH_COPY, ENTRY);
    OpenedAt(BOTH, ONTO, FIRST, LAST, Q4.(clock := 5), WITH_COPY, ENTRY);
  }

  lemma RunSteps()
    ensures Leads(BOTH, Reconcile(ID, GOOD), S1) && Leads(S1, Advance(ID, GOOD), S2) && Leads(S2, Advance(ID, GOOD), S3)
    ensures Leads(S3, Advance(ID, GOOD), S4) && Leads(S4, Advance(ID, GOOD), S5) && Leads(S5, Advance(ID, GOOD), S6)
    ensures Leads(S6, Advance(ID, GOOD), S7) && Leads(S7, Advance(ID, GOOD), S8)
  {
    hide Leads, During;
    BothBegun();
    BothEntered();
    BothOpened();
    WrittenBeside();
    SkippedOnto();
  }

  lemma EightSteps(s1: System, s2: System, s3: System, s4: System, s5: System, s6: System, s7: System, s8: System)
    requires Leads(BOTH, Reconcile(ID, GOOD), s1) && Leads(s1, Advance(ID, GOOD), s2) && Leads(s2, Advance(ID, GOOD), s3)
    requires Leads(s3, Advance(ID, GOOD), s4) && Leads(s4, Advance(ID, GOOD), s5) && Leads(s5, Advance(ID, GOOD), s6)
    requires Leads(s6, Advance(ID, GOOD), s7) && Leads(s7, Advance(ID, GOOD), s8)
    ensures CanHappen(CONFIG, BOTH, EVENTS) && After(CONFIG, BOTH, EVENTS) == s8
  {
    hide Leads;
    ChainRuns([BOTH, s1, s2, s3, s4, s5, s6, s7, s8], EVENTS);
  }

  /** A run in which no call fails: the copy next to the Cluster is there, the one onto it is not, and its condition says that all is well. */
  lemma OntoIsTakenForCopy()
    ensures CanHappen(CONFIG, BOTH, EVENTS) && After(CONFIG, BOTH, EVENTS) == During(BOTH, CLOSING, Q7, WITH_COPY, ENTRY)
    ensures KEY1 == Location(HomeRef(ONTO, Some(FIRST)), AT.ref) && AT in WITH_COPY.objects && KEY1 !in WITH_COPY.objects
    ensures TargetCondition(CONFIG.targetCondition(KEY1), true, IdenticalCopy) in Q7.conditions
  {
    hide Leads, CanHappen, After, During;
    RunSteps();
    EightSteps(S1, S2, S3, S4, S5, S6, S7, S8);
  }
}
