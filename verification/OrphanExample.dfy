/** The one way an orphan comes about: two Clusters whose NextTo copies are one object, and a status patch that is lost for the first. */
module OrphanExample {
  import opened Refs
  import opened StatusList
  import opened Objects
  import opened Targets
  import opened Steps
  import opened System
  import opened NoOrphans
  import Protection
  import opened EventRuns

  const LOST_PATCH := GOOD.(patch := Lost)

  const START := Waiting([FIRST, SECOND], [NEXT_TO], W, [])

  /** Reconcile, the definition, the first Cluster and its target with a lost patch, then the second Cluster and its target. */
  const RUN: seq<Event> := [
    Reconcile(ID, GOOD),
    Advance(ID, GOOD), Advance(ID, GOOD), Advance(ID, LOST_PATCH), Advance(ID, GOOD),
    Advance(ID, GOOD), Advance(ID, GOOD)]

  function At(agenda: seq<Task>, pass: Pass): System {
    During(START, agenda, pass, W, [])
  }

  const P0 := NewPass(ID, START.replicas[ID], START.clusters)
  const P2 := P0.(clock := 3, status := ENTRY, conditions := [TargetCondition("a", false, Failed)], errors := 1,
    seen := map[KEY1 := "raw"], renderings := [(KEY1, "raw")], reached := [KEY1])
  const P4 := Left(P2, FIRST).(clock := 5)

  const OPEN2: seq<Task> := [OpenCluster(NEXT_TO, Some(SECOND))] + LAST
  const AFTER_FIRST := [CloseCluster(Some(FIRST))] + OPEN2
  const AFTER_SECOND := [CloseCluster(Some(SECOND))] + LAST
  const S1 := At([Definition(NEXT_TO)] + LAST, P0)
  const S2 := At([OpenCluster(NEXT_TO, Some(FIRST))] + OPEN2, P0.(clock := 1))
  const S3 := At([Target(NEXT_TO, Some(FIRST), "ns")] + AFTER_FIRST, P0.(clock := 2))
  const S4 := At(AFTER_FIRST, P2)
  const S5 := At(OPEN2, Left(P2, FIRST))
  const S6 := At([Target(NEXT_TO, Some(SECOND), "ns")] + AFTER_SECOND, P4)

  lemma Looped()
    ensures Leads(S1, Advance(ID, GOOD), S2)
  {
    assert MatchedClusters(CONFIG, NEXT_TO, [SECOND]) == [Some(SECOND)];
    assert START.clusters[1..] == [SECOND];
    assert MatchedClusters(CONFIG, NEXT_TO, START.clusters) == [Some(FIRST), Some(SECOND)];
    assert [Some(FIRST), Some(SECOND)][1..] == [Some(SECOND)];
    assert OpenTasks(NEXT_TO, [Some(SECOND)]) == [OpenCluster(NEXT_TO, Some(SECOND))];
    var more := [OpenCluster(NEXT_TO, Some(FIRST)), OpenCluster(NEXT_TO, Some(SECOND))];
    assert OpenTasks(NEXT_TO, [Some(FIRST), Some(SECOND)]) == more;
    Stepped(START, GOOD, Definition(NEXT_TO), LAST, P0, W, [], P0.(clock := 1), W, [], more);
    assert more + LAST == [OpenCluster(NEXT_TO, Some(FIRST))] + OPEN2;
  }

  /** The first target fails at the patch; the entry stays in memory. */
  lemma FirstTarget()
    ensures Leads(S3, Advance(ID, LOST_PATCH), S4)
  {
    assert AddedAt([], AT) == ENTRY;
    var s := State(W, [], P0.(clock := 2));
    assert HandleTarget(CONFIG, LOST_PATCH, NEXT_TO, Some(FIRST), "ns", s) == State(W, [], P2.(clock := 2));
    Stepped(START, LOST_PATCH, Target(NEXT_TO, Some(FIRST), "ns"), AFTER_FIRST, P0.(clock := 2), W, [], P2, W, [], []);
    assert [] + AFTER_FIRST == AFTER_FIRST;
  }

  /** The second target finds its entry in memory and writes without a patch. */
  lemma SecondTarget()
    ensures Enabled(CONFIG, S6, Advance(ID, GOOD)) && Orphan(CONFIG, Next(CONFIG, S6, Advance(ID, GOOD)), ID, AT)
  {
    var s := State(W, [], P4);
    assert HasAt(P4.status, AT);
    assert KEY2 !in P4.seen;
    var s' := HandleTarget(CONFIG, GOOD, NEXT_TO, Some(SECOND), "ns", s);
    assert s'.persisted == [];
    assert Tracked([]) == {};
    var o := CreatedOrUpdated(None, Copy(CONFIG, P4, BLANK));
    SyncTakesOwnership(CONFIG.provider, ID, P4.generation, None, BLANK);
    assert s'.world.objects == map[AT := o];
    assert Owns(CONFIG.provider, ID, o);
    assert ([Target(NEXT_TO, Some(SECOND), "ns")] + AFTER_SECOND)[1..] == AFTER_SECOND;
  }

  lemma StartIsFresh()
    ensures Fresh(CONFIG, START, ID, AT)
  {}

  /** The run up to the second target. */
  lemma FirstSteps()
    ensures Leads(START, Reconcile(ID, GOOD), S1) && Leads(S1, Advance(ID, GOOD), S2) && Leads(S2, Advance(ID, GOOD), S3)
    ensures Leads(S3, Advance(ID, LOST_PATCH), S4) && Leads(S4, Advance(ID, GOOD), S5) && Leads(S5, Advance(ID, GOOD), S6)
  {
    Begun([FIRST, SECOND], NEXT_TO, W, []);
    Looped();
    OpenedAt(START, NEXT_TO, FIRST, OPEN2, P0.(clock := 1), W, []);
    FirstTarget();
    ClosedAt(START, FIRST, OPEN2, P2, W, []);
    OpenedAt(START, NEXT_TO, SECOND, LAST, Left(P2, FIRST), W, []);
    hide Leads;
  }

  lemma SevenSteps(s1: System, s2: System, s3: System, s4: System, s5: System, s6: System, s7: System)
    requires Leads(START, Reconcile(ID, GOOD), s1) && Leads(s1, Advance(ID, GOOD), s2) && Leads(s2, Advance(ID, GOOD), s3)
    requires Leads(s3, Advance(ID, LOST_PATCH), s4) && Leads(s4, Advance(ID, GOOD), s5) && Leads(s5, Advance(ID, GOOD), s6)
    requires Leads(s6, Advance(ID, GOOD), s7)
    ensures CanHappen(CONFIG, START, RUN) && After(CONFIG, START, RUN) == s7
  {
    hide Leads;
    ChainRuns([START, s1, s2, s3, s4, s5, s6, s7], RUN);
  }

  /** From a fresh start the run leaves an object that carries the replica's labels and is in no stored status. */
  lemma LostPatchLeavesOrphan()
    ensures Fresh(CONFIG, START, ID, AT)
    ensures CanHappen(CONFIG, START, RUN) && Orphan(CONFIG, After(CONFIG, START, RUN), ID, AT)
  {
    StartIsFresh();
    FirstSteps();
    SecondTarget();
    var last := Next(CONFIG, S6, Advance(ID, GOOD));
    assert Leads(S6, Advance(ID, GOOD), last);
    hide Fresh, Orphan, Leads, CanHappen, After, At, During;
    SevenSteps(S1, S2, S3, S4, S5, S6, last);
  }

  lemma OrderlyThere()
    ensures Protection.AllOrderly(S6)
  {
    var agenda := [Target(NEXT_TO, Some(SECOND), "ns")] + AFTER_SECOND;
    assert agenda[0] == Target(NEXT_TO, Some(SECOND), "ns") && agenda[1..] == AFTER_SECOND && AFTER_SECOND[1..] == LAST;
    assert Protection.Looping(LAST) && Protection.Looping(AFTER_SECOND) && Protection.Looping(agenda);
    assert Tracked([]) == {};
  }

  lemma SecondIsSynced()
    ensures var p' := Step(CONFIG, GOOD, Target(NEXT_TO, Some(SECOND), "ns"), State(W, [], P4)).0.pass;
            p'.managed == P4.managed + [AT]
    ensures AT in Tracked(ENTRY) && AT !in Tracked([])
  {
    assert HasAt(P4.status, AT);
    assert KEY2 !in P4.seen;
    RawRefinesSet(ENTRY, AT);
  }

  /** The pass that left the orphan does not delete it, and its entry is stored as soon as one of the pass's later patches takes effect. */
  lemma OrphanIsRecorded(events: seq<Event>)
    requires CanHappen(CONFIG, S6, [Advance(ID, GOOD)] + events) && Protection.NoNewPass(events, ID)
    ensures var sys := Next(CONFIG, S6, Advance(ID, GOOD));
            && CanHappen(CONFIG, sys, events)
            && Protection.NeverDeletes(CONFIG, sys, events, ID, AT)
            && (ID in After(CONFIG, sys, events).replicas ==>
                  (AT in Tracked(After(CONFIG, sys, events).replicas[ID].persisted) <==> Protection.HasPatched(CONFIG, sys, events, ID)))
  {
    var t := Target(NEXT_TO, Some(SECOND), "ns");
    assert S6.replicas[ID].running.value.agenda[0] == t && StateOf(S6, ID) == State(W, [], P4);
    OrderlyThere();
    SecondIsSynced();
    hide Step, Protection.AllOrderly, Tracked, Next, CanHappen, After, Protection.HasPatched, Protection.NeverDeletes;
    Protection.SyncedCopyIsSpared(CONFIG, S6, GOOD, events, ID, t, AT);
  }
}
