/** A reconcile that could not read its inputs leaves all copies and the stored list alone. */
module FailedInputs {
  import opened Refs
  import opened StatusList
  import opened Objects
  import opened Targets
  import opened Steps
  import opened System
  import opened DeletionPhase
  import opened Quiet
  import opened Protection

  /** The Clusters could not be listed; or, unless the replica is being deleted, a source could not be read, or the finalizer not be written. */
  ghost predicate InputsFail(start: Fate, r: Stored) {
    !start.list || (!r.deleting && (!start.sources || (!r.finalizer && !start.finalizer.Ok?)))
  }

  lemma StartsIdle(id: ReplicaId, start: Fate, clusters: seq<Cluster>, r: Stored)
    requires start.get && !r.ignored && r.running.None? && InputsFail(start, r)
    ensures var r' := Start(id, start, clusters, r);
            && r'.persisted == r.persisted && (r'.running.Some? ==> IdlePass(r'.running.value))
            && r'.running.Some? && r' == r.(finalizer := r'.finalizer, running := r'.running)
            && (r'.finalizer <==> r.finalizer || (start.list && !r.deleting && !start.finalizer.Lost?))
  {}

  /** Nothing is left to do for the pass but to send a status that is as it was. */
  ghost predicate IdlePass(running: Running) {
    (running.agenda == [] || running.agenda == [UpdateStatus]) && running.pass.status == running.pass.oldStatus
  }

  lemma IdleRun(cfg: Config, fates: Oracle, s: State)
    requires s.pass.status == s.pass.oldStatus
    ensures var s' := Run(cfg, fates, [UpdateStatus], s); s'.world == s.world && s'.persisted == s.persisted
  {
    var fate := fates(s.pass.clock, UpdateStatus);
    RunStep(cfg, fates, [UpdateStatus], s);
    assert [] + [UpdateStatus][1..] == [];
    assert Run(cfg, fates, [], Ticked(WriteStatus(fate, s))) == Ticked(WriteStatus(fate, s));
    hide Run;
  }

  /** A whole pass without its inputs changes neither an object nor a namespace nor the stored list, whatever its calls do. */
  lemma FailedInputsChangeNothing(cfg: Config, start: Fate, fates: Oracle, id: ReplicaId, w: World, clusters: seq<Cluster>, r: Stored)
    requires start.get && !r.ignored && r.running.None? && InputsFail(start, r)
    ensures var (w', r') := WholePass(cfg, start, fates, id, w, clusters, r);
            && w' == w && r' == r.(finalizer := r'.finalizer)
            && (r'.finalizer <==> r.finalizer || (start.list && !r.deleting && !start.finalizer.Lost?))
  {
    StartsIdle(id, start, clusters, r);
    var r' := Start(id, start, clusters, r);
    StartAgenda(id, start, clusters, r);
    IdleRun(cfg, fates, State(w, r'.persisted, r'.running.value.pass));
    hide Run, Start;
  }

  lemma StartAgenda(id: ReplicaId, start: Fate, clusters: seq<Cluster>, r: Stored)
    requires start.get && !r.ignored && InputsFail(start, r)
    ensures var r' := Start(id, start, clusters, r); r'.running.Some? && r'.running.value.agenda == [UpdateStatus]
  {}

  /** A replica that could not be fetched, or is to be ignored, is not touched at all. */
  lemma UnfetchedIsLeft(cfg: Config, start: Fate, fates: Oracle, id: ReplicaId, w: World, clusters: seq<Cluster>, r: Stored)
    requires (!start.get || r.ignored) && r.running.None?
    ensures WholePass(cfg, start, fates, id, w, clusters, r) == (w, r)
  {}

  /** id's pass changes no object, no namespace and not the stored list. */
  ghost predicate ChangesNothing(cfg: Config, sys: System, events: seq<Event>, id: ReplicaId)
    requires CanHappen(cfg, sys, events)
    decreases |events|
  {
    events == [] ||
      var e, sys' := events[0], Next(cfg, sys, events[0]);
      && (e.Advance? && e.id == id ==>
            sys'.world == sys.world && id in sys'.replicas && sys'.replicas[id].persisted == sys.replicas[id].persisted)
      && ChangesNothing(cfg, sys', events[1..], id)
  }

  ghost predicate Idle(sys: System, id: ReplicaId) {
    id in sys.replicas && sys.replicas[id].running.Some? ==> IdlePass(sys.replicas[id].running.value)
  }

  lemma IdleEvent(cfg: Config, sys: System, e: Event, id: ReplicaId)
    requires Enabled(cfg, sys, e) && Idle(sys, id) && !Begins(e, id)
    ensures var sys' := Next(cfg, sys, e);
            && Idle(sys', id)
            && (e.Advance? && e.id == id ==>
                  sys'.world == sys.world && id in sys'.replicas && sys'.replicas[id].persisted == sys.replicas[id].persisted)
  {
    if e.Advance? && e.id == id {
      assert sys.replicas[id].running.value.agenda == [UpdateStatus];
      assert [] + [UpdateStatus][1..] == [];
    } else {
      hide Step, Start;
    }
  }

  lemma {:induction false} IdleToTheEnd(cfg: Config, sys: System, events: seq<Event>, id: ReplicaId)
    requires CanHappen(cfg, sys, events) && NoNewPass(events, id) && Idle(sys, id)
    ensures ChangesNothing(cfg, sys, events, id)
    decreases |events|
  {
    if events != [] {
      IdleEvent(cfg, sys, events[0], id);
      hide Idle, Enabled;
      IdleToTheEnd(cfg, Next(cfg, sys, events[0]), events[1..], id);
    }
  }

  /** The same with anything in between: until the next reconcile of the replica no step of this one changes an object, a namespace or
      the stored list. */
  lemma FailedInputsLeaveAlone(cfg: Config, sys: System, start: Fate, events: seq<Event>, id: ReplicaId)
    requires CanHappen(cfg, sys, [Reconcile(id, start)] + events) && NoNewPass(events, id)
    requires !start.get || sys.replicas[id].ignored || InputsFail(start, sys.replicas[id])
    ensures var sys' := Next(cfg, sys, Reconcile(id, start));
            && sys'.world == sys.world && id in sys'.replicas && sys'.replicas[id].persisted == sys.replicas[id].persisted
            && CanHappen(cfg, sys', events) && ChangesNothing(cfg, sys', events, id)
  {
    if start.get && !sys.replicas[id].ignored {
      StartsIdle(id, start, sys.clusters, sys.replicas[id]);
    }
    assert ([Reconcile(id, start)] + events)[1..] == events;
    IdleToTheEnd(cfg, Next(cfg, sys, Reconcile(id, start)), events, id);
  }
}
