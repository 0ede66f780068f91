/** A replica deleted in the middle of a sync: the rest of that pass still adds entries. */
module DeletionExample {
  import opened Refs
  import opened StatusList
  import opened Objects
  import opened Targets
  import opened Steps
  import opened System
  import opened EventRuns
  import opened OrphanExample

  /** The first Cluster's target is ahead when the replica is deleted. */
  const EVENTS: seq<Event> := [Reconcile(ID, GOOD), Advance(ID, GOOD), Advance(ID, GOOD), DeleteReplica(ID)]

  const S4D := S3.(replicas := map[ID := S3.replicas[ID].(deleting := true)])

  lemma Deleted()
    ensures Leads(S3, DeleteReplica(ID), S4D)
    ensures ID in S4D.replicas && S4D.replicas[ID].deleting && Tracked(S4D.replicas[ID].persisted) == {}
  {
    assert Tracked([]) == {};
  }

  lemma FourSteps(s1: System, s2: System, s3: System, s4: System)
    requires Leads(START, Reconcile(ID, GOOD), s1) && Leads(s1, Advance(ID, GOOD), s2) && Leads(s2, Advance(ID, GOOD), s3)
    requires Leads(s3, DeleteReplica(ID), s4)
    ensures CanHappen(CONFIG, START, EVENTS) && After(CONFIG, START, EVENTS) == s4
  {
    hide Leads;
    ChainRuns([START, s1, s2, s3, s4], EVENTS);
  }

  /** The target of a replica that is being deleted is written ahead all the same. */
  lemma TargetAfterDeletion()
    ensures Enabled(CONFIG, S4D, Advance(ID, GOOD))
    ensures AT in Tracked(Next(CONFIG, S4D, Advance(ID, GOOD)).replicas[ID].persisted)
  {
    StoresEntry();
    var s := State(W, [], P0.(clock := 2));
    assert S4D.replicas[ID].running.value.agenda[0] == Target(NEXT_TO, Some(FIRST), "ns") && StateOf(S4D, ID) == s;
    assert WellFormed([]);
    RawRefinesSet([], AT);
    hide HandleTarget, Tracked, WellFormed, AddedAt;
  }

  lemma StoresEntry()
    ensures HandleTarget(CONFIG, GOOD, NEXT_TO, Some(FIRST), "ns", State(W, [], P0.(clock := 2))).persisted == AddedAt([], AT)
  {
    assert HasAt([], AT) == false;
    assert AddedAt([], AT) == ENTRY;
  }

  /** EntriesNeverIncrease needs a pass that deletes: a run from a fresh start in which an entry is added after the deletion. */
  lemma DeletedMidPass()
    ensures CanHappen(CONFIG, START, EVENTS)
    ensures var sys := After(CONFIG, START, EVENTS);
            && ID in sys.replicas && sys.replicas[ID].deleting && Tracked(sys.replicas[ID].persisted) == {}
            && Enabled(CONFIG, sys, Advance(ID, GOOD))
            && AT in Tracked(Next(CONFIG, sys, Advance(ID, GOOD)).replicas[ID].persisted)
  {
    hide Leads, CanHappen, After, At, Tracked, Enabled, Next;
    FirstSteps();
    Deleted();
    TargetAfterDeletion();
    FourSteps(S1, S2, S3, S4D);
  }
}
