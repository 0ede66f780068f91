/** The notification channel shared by the controllers (internal/shared/shared.go): enqueues of a replica that is already pending are suppressed. */
module Enqueue {
  import opened Refs

  datatype NamespacedName = NamespacedName(namespace: string, name: string)

  const CAPACITY: nat := 1000

  function Key(nn: NamespacedName): string {
    nn.namespace + "/" + nn.name
  }

  /** Namespaces contain no slash, so a key names one replica. */
  lemma KeyIsInjective(a: NamespacedName, b: NamespacedName)
    requires '/' !in a.namespace && '/' !in b.namespace
    ensures Key(a) == Key(b) <==> a == b
  {
    if Key(a) == Key(b) {
      SplitUnique(a.namespace, a.name, b.namespace, b.name, '/');
    }
  }

  // ---- One caller at a time ----

  datatype Shared = Shared(pending: set<string>, channel: seq<NamespacedName>)

  /** An enqueue that nothing interrupts: the second of two is suppressed, and one that finds the channel full leaves no trace. */
  function Enqueued(s: Shared, nn: NamespacedName): Shared {
    if Key(nn) in s.pending || |s.channel| >= CAPACITY then s
    else Shared(s.pending + {Key(nn)}, s.channel + [nn])
  }

  class SharedInformation {
    var pending: set<string>
    var channel: seq<NamespacedName>

    function View(): Shared
      reads this
    {
      Shared(pending, channel)
    }

    constructor ()
      ensures View() == Shared({}, [])
    {
      pending, channel := {}, [];
    }

    /** The first critical section. */
    method Mark(nn: NamespacedName) returns (alreadyPending: bool)
      modifies this`pending
      ensures alreadyPending <==> Key(nn) in old(pending)
      ensures pending == old(pending) + {Key(nn)}
    {
      var key := Key(nn);
      alreadyPending := key in pending;
      if !alreadyPending {
        pending := pending + {key};
      }
    }

    /** The non-blocking send. */
    method TrySend(nn: NamespacedName) returns (sent: bool)
      modifies this`channel
      ensures sent <==> |old(channel)| < 1000
      ensures channel == if sent then old(channel) + [nn] else old(channel)
    {
      sent := |channel| < CAPACITY;
      if sent {
        channel := channel + [nn];
      }
    }

    /** The second critical section of EnqueueReplica, and all of ClearPending. */
    method ClearPending(nn: NamespacedName)
      modifies this`pending
      ensures pending == old(pending) - {Key(nn)}
    {
      pending := pending - {Key(nn)};
    }

    method EnqueueReplica(nn: NamespacedName)
      modifies this
      ensures View() == Enqueued(old(View()), nn)
    {
      var alreadyPending := Mark(nn);
      if alreadyPending {
        assert pending == old(pending);
        return;
      }
      var sent := TrySend(nn);
      if !sent {
        ClearPending(nn);
        assert pending == old(pending);
      }
    }
  }

  // ---- Any number of callers, the channel's consumer, the work queue and the workers ----

  /** A call of EnqueueReplica between its atomic steps. */
  datatype Call = Sending(nn: NamespacedName) | RollingBack(nn: NamespacedName)

  /** marks is the pending set; it also records which call set each mark. Calls are numbered as they set their mark.
      relay holds events taken off the channel but not yet in the work queue, queue the items waiting there, popped the items
      handed to a worker that has not reached ClearPending, reconciling the ones past it. full records the calls that found the channel full. */
  datatype State = State(
    marks: map<string, nat>, calls: map<nat, Call>, next: nat,
    channel: seq<NamespacedName>, relay: seq<NamespacedName>,
    queue: set<NamespacedName>, popped: set<NamespacedName>, reconciling: set<NamespacedName>,
    full: set<nat>)

  const INITIAL := State(map[], map[], 0, [], [], {}, {}, {}, {})

  datatype Event =
    | Enter(nn: NamespacedName)
    | Send(call: nat)
    | RollBack(call: nat)
    | Receive
    | Deliver
    | OtherSource(nn: NamespacedName)
    | Pop(nn: NamespacedName)
    | StartReconcile(nn: NamespacedName)
    | Finish(nn: NamespacedName)

  /** An item is not handed to a second worker while the first one has it. */
  predicate Enabled(s: State, e: Event) {
    match e
    case Enter(_) => true
    case Send(c) => c in s.calls && s.calls[c].Sending?
    case RollBack(c) => c in s.calls && s.calls[c].RollingBack?
    case Receive => s.channel != []
    case Deliver => s.relay != []
    case OtherSource(_) => true
    case Pop(nn) => nn in s.queue && nn !in s.popped && nn !in s.reconciling
    case StartReconcile(nn) => nn in s.popped
    case Finish(nn) => nn in s.reconciling
  }

  predicate Suppressed(s: State, nn: NamespacedName) {
    Key(nn) in s.marks
  }

  function Next(s: State, e: Event): State
    requires Enabled(s, e)
  {
    match e
    case Enter(nn) =>
      if Suppressed(s, nn) then s
      else s.(marks := s.marks[Key(nn) := s.next], calls := s.calls[s.next := Sending(nn)], next := s.next + 1)
    case Send(c) =>
      var nn := s.calls[c].nn;
      if |s.channel| < CAPACITY then s.(channel := s.channel + [nn], calls := s.calls - {c})
      else s.(calls := s.calls[c := RollingBack(nn)], full := s.full + {c})
    case RollBack(c) => s.(marks := s.marks - {Key(s.calls[c].nn)}, calls := s.calls - {c})
    case Receive => s.(channel := s.channel[1..], relay := s.relay + [s.channel[0]])
    case Deliver => s.(relay := s.relay[1..], queue := s.queue + {s.relay[0]})
    case OtherSource(nn) => s.(queue := s.queue + {nn})
    case Pop(nn) => s.(queue := s.queue - {nn}, popped := s.popped + {nn})
    case StartReconcile(nn) => s.(marks := s.marks - {Key(nn)}, popped := s.popped - {nn}, reconciling := s.reconciling + {nn})
    case Finish(nn) => s.(reconciling := s.reconciling - {nn})
  }

  predicate CanHappen(s: State, events: seq<Event>)
    decreases |events|
  {
    events == [] || (Enabled(s, events[0]) && CanHappen(Next(s, events[0]), events[1..]))
  }

  function After(s: State, events: seq<Event>): State
    requires CanHappen(s, events)
    decreases |events|
  {
    if events == [] then s else After(Next(s, events[0]), events[1..])
  }

  /** A call that nothing interrupts does what EnqueueReplica does. */
  lemma CallAloneEnqueues(s: State, nn: NamespacedName)
    requires s.next !in s.calls && |s.channel| <= 1000
    ensures var events := if Suppressed(s, nn) then [Enter(nn)]
                          else if |s.channel| < 1000 then [Enter(nn), Send(s.next)]
                          else [Enter(nn), Send(s.next), RollBack(s.next)];
            && CanHappen(s, events)
            && var s' := After(s, events);
            && Shared(s'.marks.Keys, s'.channel) == Enqueued(Shared(s.marks.Keys, s.channel), nn)
            && s'.calls == s.calls
  {
    var s1 := Next(s, Enter(nn));
    if !Suppressed(s, nn) {
      var c := s.next;
      var s2 := Next(s1, Send(c));
      assert After(s2, []) == s2;
      assert [Send(c)][1..] == [] && [Enter(nn), Send(c)][1..] == [Send(c)];
      if |s.channel| < CAPACITY {
        assert s2.calls == s.calls;
        assert After(s, [Enter(nn), Send(c)]) == After(s1, [Send(c)]) == s2;
        assert s2.marks.Keys == s.marks.Keys + {Key(nn)};
      } else {
        var s3 := Next(s2, RollBack(c));
        assert s3.calls == s.calls && s3.marks.Keys == s.marks.Keys;
        assert [Enter(nn), Send(c), RollBack(c)][1..] == [Send(c), RollBack(c)];
        assert [Send(c), RollBack(c)][1..] == [RollBack(c)] && [RollBack(c)][1..] == [];
        assert CanHappen(s3, []) && After(s3, []) == s3;
        assert CanHappen(s2, [RollBack(c)]) && After(s2, [RollBack(c)]) == s3;
        assert CanHappen(s1, [Send(c), RollBack(c)]) && After(s1, [Send(c), RollBack(c)]) == s3;
      }
    } else {
      assert [Enter(nn)][1..] == [] && CanHappen(s, []) && After(s, []) == s;
    }
  }

  // ---- No lost wake-up ----

  /** A wake-up of key is on its way: in the channel or behind it, up to ClearPending. */
  ghost predicate Carried(s: State, key: string) {
    || (exists nn :: nn in s.channel && Key(nn) == key)
    || (exists nn :: nn in s.relay && Key(nn) == key)
    || (exists nn :: nn in s.queue && Key(nn) == key)
    || (exists nn :: nn in s.popped && Key(nn) == key)
  }

  predicate IsSending(s: State, key: string, call: nat) {
    call in s.calls && s.calls[call].Sending? && Key(s.calls[call].nn) == key
  }

  predicate IsRollingBack(s: State, key: string, call: nat) {
    call in s.calls && s.calls[call].RollingBack? && Key(s.calls[call].nn) == key
  }

  /** Every mark is backed: the call that set it has not sent yet, or it will roll back, or its wake-up is on the way. */
  ghost predicate Inv(s: State) {
    && |s.channel| <= CAPACITY
    && (forall c :: c in s.calls ==> c < s.next && (s.calls[c].RollingBack? <==> c in s.full))
    && (forall c :: c in s.full ==> c < s.next)
    && (forall k :: k in s.marks ==>
          && s.marks[k] < s.next
          && (s.marks[k] in s.calls ==> Key(s.calls[s.marks[k]].nn) == k)
          && (IsSending(s, k, s.marks[k]) || IsRollingBack(s, k, s.marks[k]) || (Carried(s, k) && s.marks[k] !in s.full)))
  }

  lemma CarriedOn(s: State, e: Event, key: string)
    requires Enabled(s, e) && Carried(s, key) && !(e.StartReconcile? && Key(e.nn) == key)
    ensures Carried(Next(s, e), key)
  {
    var s' := Next(s, e);
    match e
    case Receive =>
      assert s.channel == [s.channel[0]] + s.channel[1..];
      assert forall nn :: nn in s.channel ==> nn in s'.channel || nn in s'.relay;
      assert forall nn :: nn in s.relay ==> nn in s'.relay;
    case Deliver =>
      assert s.relay == [s.relay[0]] + s.relay[1..];
      assert forall nn :: nn in s.relay ==> nn in s'.relay || nn in s'.queue;
    case Pop(_) =>
      assert forall nn :: nn in s.queue ==> nn in s'.queue || nn in s'.popped;
    case _ =>
  }

  /** The wake-up of a call that has sent or is about to, followed over one step. */
  lemma Follow(s: State, e: Event, key: string, call: nat)
    requires Enabled(s, e) && (IsSending(s, key, call) || Carried(s, key)) && call < s.next
    ensures var s' := Next(s, e);
            || (e.StartReconcile? && Key(e.nn) == key)
            || (call in s'.full && IsRollingBack(s', key, call))
            || IsSending(s', key, call) || Carried(s', key)
  {
    if IsSending(s, key, call) {
      if e == Send(call) && |s.channel| < CAPACITY {
        var nn := s.calls[call].nn;
        assert Next(s, e).channel[|s.channel|] == nn;
        assert nn in Next(s, e).channel && Key(nn) == key;
      }
    } else if !(e.StartReconcile? && Key(e.nn) == key) {
      CarriedOn(s, e, key);
    }
  }

  lemma InvStep(s: State, e: Event)
    requires Inv(s) && Enabled(s, e)
    ensures Inv(Next(s, e))
  {
    var s' := Next(s, e);
    forall k | k in s'.marks
      ensures && s'.marks[k] < s'.next
              && (s'.marks[k] in s'.calls ==> Key(s'.calls[s'.marks[k]].nn) == k)
              && (IsSending(s', k, s'.marks[k]) || IsRollingBack(s', k, s'.marks[k]) || (Carried(s', k) && s'.marks[k] !in s'.full))
    {
      if k in s.marks && s'.marks[k] == s.marks[k] {
        var c := s.marks[k];
        if Carried(s, k) && !(e.StartReconcile? && Key(e.nn) == k) {
          CarriedOn(s, e, k);
        }
        if IsSending(s, k, c) {
          Follow(s, e, k, c);
        }
      }
    }
  }

  lemma {:induction false} InvAlways(s: State, events: seq<Event>)
    requires Inv(s) && CanHappen(s, events)
    ensures Inv(After(s, events))
    decreases |events|
  {
    hide Inv;
    if events != [] {
      InvStep(s, events[0]);
      InvAlways(Next(s, events[0]), events[1..]);
    }
  }

  /** In every reachable state each pending key has an in-flight sender, a channel event, a queued or just-popped item, or a call about to roll back. */
  lemma PendingIsBacked(events: seq<Event>, key: string)
    requires CanHappen(INITIAL, events) && key in After(INITIAL, events).marks
    ensures var s := After(INITIAL, events);
            Carried(s, key) || exists c :: IsSending(s, key, c) || IsRollingBack(s, key, c)
  {
    InvAlways(INITIAL, events);
  }

  predicate Started(events: seq<Event>, key: string) {
    exists e :: e in events && e.StartReconcile? && Key(e.nn) == key
  }

  lemma {:induction false} FullStays(s: State, events: seq<Event>)
    requires CanHappen(s, events)
    ensures s.full <= After(s, events).full
    decreases |events|
  {
    if events != [] {
      FullStays(Next(s, events[0]), events[1..]);
    }
  }

  lemma {:induction false} FollowRun(s: State, events: seq<Event>, key: string, call: nat)
    requires CanHappen(s, events) && (IsSending(s, key, call) || Carried(s, key)) && call < s.next
    ensures var s' := After(s, events);
            Started(events, key) || call in s'.full || IsSending(s', key, call) || Carried(s', key)
    decreases |events|
  {
    hide Carried;
    if events != [] {
      var s' := Next(s, events[0]);
      Follow(s, events[0], key, call);
      assert events == [events[0]] + events[1..];
      FullStays(s', events[1..]);
      if IsSending(s', key, call) || Carried(s', key) {
        FollowRun(s', events[1..], key, call);
        assert Started(events[1..], key) ==> Started(events, key);
      }
    }
  }

  /** Nothing is on its way and no call is under way. */
  predicate AtRest(s: State) {
    s.calls == map[] && s.channel == [] && s.relay == [] && s.queue == {} && s.popped == {} && s.reconciling == {}
  }

  /** No lost wake-up: in every run, an enqueue suppressed because of the mark of another call is followed by the start of a Reconcile
      of its key, unless that other call found the channel full. Until then the wake-up is on its way. */
  lemma NoLostWakeUp(before: seq<Event>, nn: NamespacedName, after: seq<Event>)
    requires CanHappen(INITIAL, before) && Suppressed(After(INITIAL, before), nn)
    requires CanHappen(After(INITIAL, before), after)
    ensures var setter := After(INITIAL, before).marks[Key(nn)];
            var s := After(After(INITIAL, before), after);
            && (Started(after, Key(nn)) || setter in s.full || IsSending(s, Key(nn), setter) || Carried(s, Key(nn)))
            && (AtRest(s) ==> Started(after, Key(nn)) || setter in s.full)
  {
    var s0 := After(INITIAL, before);
    InvAlways(INITIAL, before);
    var setter := s0.marks[Key(nn)];
    FullStays(s0, after);
    if IsSending(s0, Key(nn), setter) || Carried(s0, Key(nn)) {
      FollowRun(s0, after, Key(nn), setter);
    }
  }

  // ---- Progress ----

  function SumCalls(s: State, n: nat): nat {
    if n == 0 then 0
    else SumCalls(s, n - 1) + (if n - 1 !in s.calls then 0 else if s.calls[n - 1].Sending? then 6 else 1)
  }

  function Work(s: State): nat {
    SumCalls(s, s.next) + 5 * |s.channel| + 4 * |s.relay| + 3 * |s.queue| + 2 * |s.popped| + |s.reconciling|
  }

  lemma {:induction false} SumCallsSame(s: State, s': State, n: nat)
    requires forall c :: 0 <= c < n ==> (c in s.calls <==> c in s'.calls) && (c in s.calls ==> s.calls[c] == s'.calls[c])
    ensures SumCalls(s, n) == SumCalls(s', n)
  {
    if n > 0 {
      SumCallsSame(s, s', n - 1);
    }
  }

  lemma {:induction false} SumCallsLess(s: State, s': State, n: nat, call: nat)
    requires call < n && call in s.calls
    requires forall c :: 0 <= c < n && c != call ==> (c in s.calls <==> c in s'.calls) && (c in s.calls ==> s.calls[c] == s'.calls[c])
    requires call in s'.calls ==> s.calls[call].Sending? && s'.calls[call].RollingBack?
    ensures SumCalls(s', n) + (if call in s'.calls then 5 else if s.calls[call].Sending? then 6 else 1) == SumCalls(s, n)
  {
    if n - 1 == call {
      SumCallsSame(s, s', n - 1);
    } else {
      SumCallsLess(s, s', n - 1, call);
    }
  }

  predicate Internal(e: Event) {
    !e.Enter? && !e.OtherSource?
  }

  lemma InternalStepsDescend(s: State, e: Event)
    requires Inv(s) && Enabled(s, e) && Internal(e)
    ensures Work(Next(s, e)) < Work(s)
  {
    hide Carried, SumCalls;
    var s' := Next(s, e);
    if e.Send? || e.RollBack? {
      CallStepDescends(s, e);
    } else {
      SumCallsSame(s, s', s.next);
      hide Inv, IsSending, IsRollingBack;
    }
  }

  lemma CallStepDescends(s: State, e: Event)
    requires Inv(s) && Enabled(s, e) && (e.Send? || e.RollBack?)
    ensures Work(Next(s, e)) < Work(s)
  {
    assert e.call < s.next && s.calls[e.call].Sending? == e.Send?;
    hide Inv, SumCalls;
    SumCallsLess(s, Next(s, e), s.next, e.call);
  }

  /** Left to itself the system comes to rest: as long as it is not at rest some step is possible, and each one uses up a bounded amount of work. */
  lemma ComesToRest(s: State)
    requires Inv(s)
    ensures forall e :: Enabled(s, e) && Internal(e) ==> Work(Next(s, e)) < Work(s)
    ensures AtRest(s) <==> forall e :: Internal(e) ==> !Enabled(s, e)
  {
    forall e | Enabled(s, e) && Internal(e) ensures Work(Next(s, e)) < Work(s) {
      InternalStepsDescend(s, e);
    }
    if !AtRest(s) {
      var e :=
        if s.calls != map[] then (var c :| c in s.calls; if s.calls[c].Sending? then Send(c) else RollBack(c))
        else if s.channel != [] then Receive
        else if s.relay != [] then Deliver
        else if s.popped != {} then (var nn :| nn in s.popped; StartReconcile(nn))
        else if s.reconciling != {} then (var nn :| nn in s.reconciling; Finish(nn))
        else (var nn :| nn in s.queue; Pop(nn));
      assert Enabled(s, e) && Internal(e);
    }
  }

  // ---- Exactly one token per pending key ----

  datatype Place = InCall(call: nat) | InChannel(i: nat) | InRelay(i: nat) | Queued(nn: NamespacedName) | Popped(nn: NamespacedName)

  predicate IsAt(s: State, p: Place, key: string) {
    match p
    case InCall(c) => c in s.calls && Key(s.calls[c].nn) == key
    case InChannel(i) => i < |s.channel| && Key(s.channel[i]) == key
    case InRelay(i) => i < |s.relay| && Key(s.relay[i]) == key
    case Queued(nn) => nn in s.queue && Key(nn) == key
    case Popped(nn) => nn in s.popped && Key(nn) == key
  }

  /** A key is pending exactly if there is a token for it, and there is never a second one. */
  ghost predicate OneToken(s: State) {
    && (forall k, p, q :: IsAt(s, p, k) && IsAt(s, q, k) ==> p == q)
    && (forall k :: k in s.marks <==> exists p :: IsAt(s, p, k))
    && (forall c :: c in s.calls ==> c < s.next)
    && |s.channel| <= CAPACITY
  }

  /** Where the token at p after a step was before it. */
  function Before(s: State, e: Event, p: Place): Place
    requires Enabled(s, e)
  {
    match e
    case Send(c) => if p.InChannel? && p.i == |s.channel| then InCall(c) else p
    case Receive => if p.InChannel? then InChannel(p.i + 1) else if p.InRelay? && p.i == |s.relay| then InChannel(0) else p
    case Deliver => if p.InRelay? then InRelay(p.i + 1) else if p == Queued(s.relay[0]) then InRelay(0) else p
    case Pop(nn) => if p == Popped(nn) then Queued(nn) else p
    case _ => p
  }

  /** Where the token at p before a step is after it, unless the step uses it up. */
  function Moved(s: State, e: Event, p: Place): Place
    requires Enabled(s, e)
  {
    match e
    case Send(c) => if p == InCall(c) && |s.channel| < CAPACITY then InChannel(|s.channel|) else p
    case Receive => if p == InChannel(0) then InRelay(|s.relay|) else if p.InChannel? && p.i > 0 then InChannel(p.i - 1) else p
    case Deliver => if p == InRelay(0) then Queued(s.relay[0]) else if p.InRelay? && p.i > 0 then InRelay(p.i - 1) else p
    case Pop(nn) => if p == Queued(nn) then Popped(nn) else p
    case _ => p
  }

  predicate UsesUp(s: State, e: Event, p: Place) {
    (e.RollBack? && p == InCall(e.call)) || (e.StartReconcile? && p == Popped(e.nn))
  }

  ghost predicate NoSecond(s: State) {
    forall k, p, q :: IsAt(s, p, k) && IsAt(s, q, k) ==> p == q
  }

  lemma TokenWas(s: State, e: Event, p: Place, key: string)
    requires Enabled(s, e) && !e.OtherSource? && !e.Enter? && NoSecond(s) && IsAt(Next(s, e), p, key)
    ensures IsAt(s, Before(s, e, p), key) && !UsesUp(s, e, Before(s, e, p)) && p == Moved(s, e, Before(s, e, p))
  {
    var s' := Next(s, e);
    match e
    case Deliver => if p.Queued? { assert IsAt(s, InRelay(0), Key(s.relay[0])); }
    case Pop(nn) =>
    case Send(_) =>
    case RollBack(_) =>
    case Receive =>
    case StartReconcile(_) =>
    case Finish(_) =>
  }

  lemma TokenGoes(s: State, e: Event, p: Place, key: string)
    requires Enabled(s, e) && !e.OtherSource? && !e.Enter? && IsAt(s, p, key) && !UsesUp(s, e, p)
    ensures IsAt(Next(s, e), Moved(s, e, p), key)
  {}

  lemma OneTokenInternal(s: State, e: Event)
    requires OneToken(s) && Enabled(s, e) && !e.OtherSource? && !e.Enter?
    ensures OneToken(Next(s, e))
  {
    var s' := Next(s, e);
    forall k, p | IsAt(s', p, k) ensures IsAt(s, Before(s, e, p), k) && !UsesUp(s, e, Before(s, e, p)) && p == Moved(s, e, Before(s, e, p)) {
      TokenWas(s, e, p, k);
    }
    forall k, p | IsAt(s, p, k) && !UsesUp(s, e, p) ensures IsAt(s', Moved(s, e, p), k) {
      TokenGoes(s, e, p, k);
    }
    assert |s'.channel| <= CAPACITY;
    assert forall k, p :: UsesUp(s, e, p) && IsAt(s, p, k) ==> k !in s'.marks && forall j :: j != k ==> (j in s'.marks <==> j in s.marks);
    assert (forall p, k :: !(UsesUp(s, e, p) && IsAt(s, p, k))) ==> s'.marks == s.marks by {
      if e.RollBack? { assert UsesUp(s, e, InCall(e.call)) && IsAt(s, InCall(e.call), Key(s.calls[e.call].nn)); }
      if e.StartReconcile? { assert UsesUp(s, e, Popped(e.nn)) && IsAt(s, Popped(e.nn), Key(e.nn)); }
    }
    assert forall c :: c in s'.calls ==> c < s'.next;
    hide IsAt, Before, Moved, Next, Enabled, UsesUp;
    forall k ensures k in s'.marks <==> exists p :: IsAt(s', p, k) {
      if k in s'.marks {
        assert k in s.marks;
        var p :| IsAt(s, p, k);
        assert !UsesUp(s, e, p);
        assert IsAt(s', Moved(s, e, p), k);
      }
      if p :| IsAt(s', p, k) {
        assert IsAt(s, Before(s, e, p), k) && !UsesUp(s, e, Before(s, e, p));
        assert k in s.marks;
      }
    }
  }

  lemma OneTokenEnter(s: State, nn: NamespacedName)
    requires OneToken(s)
    ensures OneToken(Next(s, Enter(nn)))
  {
    var s' := Next(s, Enter(nn));
    if !Suppressed(s, nn) {
      forall p, k ensures IsAt(s', p, k) <==> IsAt(s, p, k) || (p == InCall(s.next) && k == Key(nn)) {}
      hide IsAt;
      forall k ensures k in s'.marks <==> exists p :: IsAt(s', p, k) {
        if k == Key(nn) {
          assert IsAt(s', InCall(s.next), k);
        } else if k in s.marks {
          var p :| IsAt(s, p, k);
          assert IsAt(s', p, k);
        }
      }
    }
  }

  predicate OnlyFromChannel(events: seq<Event>) {
    forall e :: e in events ==> !e.OtherSource?
  }

  lemma {:induction false} OneTokenAlways(s: State, events: seq<Event>)
    requires OneToken(s) && CanHappen(s, events) && OnlyFromChannel(events)
    ensures OneToken(After(s, events))
    decreases |events|
  {
    if events != [] {
      assert events[0] in events;
      if events[0].Enter? {
        OneTokenEnter(s, events[0].nn);
      } else {
        OneTokenInternal(s, events[0]);
      }
      hide OneToken;
      OneTokenAlways(Next(s, events[0]), events[1..]);
    }
  }

  lemma {:induction false} DistinctKeys(channel: seq<NamespacedName>) returns (keys: set<string>)
    requires forall i, j :: 0 <= i < j < |channel| ==> Key(channel[i]) != Key(channel[j])
    ensures |keys| == |channel|
    ensures forall k :: k in keys <==> exists i :: 0 <= i < |channel| && Key(channel[i]) == k
  {
    if channel == [] {
      keys := {};
    } else {
      var n := |channel| - 1;
      var front := DistinctKeys(channel[..n]);
      keys := front + {Key(channel[n])};
      forall k ensures k in keys <==> exists i :: 0 <= i < |channel| && Key(channel[i]) == k {
        if k in front {
          var i :| 0 <= i < n && Key(channel[..n][i]) == k;
          assert Key(channel[i]) == k;
        }
        if i :| 0 <= i < n && Key(channel[i]) == k {
          assert Key(channel[..n][i]) == k;
        }
      }
    }
  }

  lemma {:induction false} SubsetSize(a: set<string>, b: set<string>)
    requires a <= b
    ensures |a| <= |b|
  {
    if a != {} {
      var x :| x in a;
      SubsetSize(a - {x}, b - {x});
    }
  }

  /** When reconciles start only from channel events, every pending key has exactly one token: the channel never holds a key twice,
      and a call that finds it full does so while more than CAPACITY distinct keys are pending. */
  lemma ExactlyOneToken(events: seq<Event>)
    requires CanHappen(INITIAL, events) && OnlyFromChannel(events)
    ensures var s := After(INITIAL, events);
            && OneToken(s)
            && (forall i, j :: 0 <= i < j < |s.channel| ==> Key(s.channel[i]) != Key(s.channel[j]))
            && |s.channel| <= 1000
            && (forall c :: Enabled(s, Send(c)) && |s.channel| == 1000 ==> |s.marks.Keys| > 1000)
  {
    var s := After(INITIAL, events);
    assert OneToken(INITIAL);
    OneTokenAlways(INITIAL, events);
    forall i, j | 0 <= i < j < |s.channel| ensures Key(s.channel[i]) != Key(s.channel[j]) {
      assert IsAt(s, InChannel(i), Key(s.channel[i])) && IsAt(s, InChannel(j), Key(s.channel[j]));
      assert InChannel(i) != InChannel(j);
    }
    forall c | Enabled(s, Send(c)) && |s.channel| == CAPACITY ensures |s.marks.Keys| > CAPACITY {
      var keys := DistinctKeys(s.channel);
      var own := Key(s.calls[c].nn);
      assert IsAt(s, InCall(c), own);
      forall k | k in keys ensures k in s.marks.Keys && k != own {
        var i :| 0 <= i < |s.channel| && Key(s.channel[i]) == k;
        assert IsAt(s, InChannel(i), k);
      }
      SubsetSize(keys + {own}, s.marks.Keys);
    }
  }

  lemma Prepend(s: State, e: Event, rest: seq<Event>)
    requires Enabled(s, e) && CanHappen(Next(s, e), rest)
    ensures CanHappen(s, [e] + rest) && After(s, [e] + rest) == After(Next(s, e), rest)
  {
    assert ([e] + rest)[1..] == rest;
  }

  /** With reconciles from other sources the channel can hold a key twice. */
  lemma OtherSourcesDuplicate(nn: NamespacedName)
    ensures exists events :: CanHappen(INITIAL, events) && After(INITIAL, events).channel == [nn, nn]
  {
    var s1 := Next(INITIAL, Enter(nn));
    var s2 := Next(s1, Send(0));
    var s3 := Next(s2, OtherSource(nn));
    var s4 := Next(s3, Pop(nn));
    var s5 := Next(s4, StartReconcile(nn));
    var s6 := Next(s5, Enter(nn));
    var s7 := Next(s6, Send(1));
    assert s7.channel == [nn, nn];
    assert CanHappen(s7, []) && After(s7, []) == s7;
    hide CanHappen, After;
    Prepend(s6, Send(1), []);
    Prepend(s5, Enter(nn), [Send(1)] + []);
    Prepend(s4, StartReconcile(nn), [Enter(nn)] + ([Send(1)] + []));
    var e := [StartReconcile(nn)] + ([Enter(nn)] + ([Send(1)] + []));
    Prepend(s3, Pop(nn), e);
    Prepend(s2, OtherSource(nn), [Pop(nn)] + e);
    Prepend(s1, Send(0), [OtherSource(nn)] + ([Pop(nn)] + e));
    Prepend(INITIAL, Enter(nn), [Send(0)] + ([OtherSource(nn)] + ([Pop(nn)] + e)));
  }

  // ---- A wake-up that is lost ----

  lemma {:induction false} Append(s: State, events: seq<Event>, e: Event)
    requires CanHappen(s, events) && Enabled(After(s, events), e)
    ensures CanHappen(s, events + [e]) && After(s, events + [e]) == Next(After(s, events), e)
    decreases |events|
  {
    if events == [] {
      assert [] + [e] == [e] && [e][1..] == [];
      assert CanHappen(Next(s, e), []);
    } else {
      assert (events + [e])[0] == events[0] && (events + [e])[1..] == events[1..] + [e];
      Append(Next(s, events[0]), events[1..], e);
    }
  }

  /** The name of the i-th of many replicas, all in one namespace. */
  function Nth(i: nat): NamespacedName {
    NamespacedName("", seq(i, _ => 'x'))
  }

  lemma NthKeys(i: nat)
    ensures |Key(Nth(i))| == i + 1
  {}

  /** n calls for different replicas have sent. */
  ghost predicate Filled(s: State, n: nat) {
    && s.calls == map[] && s.next == n && |s.channel| == n && s.relay == [] && s.queue == {} && s.popped == {} && s.reconciling == {}
    && (forall i :: 0 <= i < n ==> s.channel[i] == Nth(i))
    && (forall k :: k in s.marks ==> |k| <= n)
  }

  lemma {:induction false} Fill(n: nat) returns (events: seq<Event>)
    requires n <= CAPACITY
    ensures CanHappen(INITIAL, events) && Filled(After(INITIAL, events), n)
  {
    if n == 0 {
      events := [];
    } else {
      var first := Fill(n - 1);
      var s := After(INITIAL, first);
      var nn := Nth(n - 1);
      NthKeys(n - 1);
      Append(INITIAL, first, Enter(nn));
      var s' := Next(s, Enter(nn));
      Append(INITIAL, first + [Enter(nn)], Send(n - 1));
      events := first + [Enter(nn)] + [Send(n - 1)];
      hide CanHappen, After;
      assert s'.calls == map[n - 1 := Sending(nn)];
      assert Next(s', Send(n - 1)).calls == map[];
    }
  }

  /** The exception in NoLostWakeUp is real: in some run an enqueue is suppressed because of a call that then finds the channel full,
      and no trace of its key is left although nothing of it has been started. */
  lemma FullChannelLoses()
    ensures exists before, nn, after ::
              && CanHappen(INITIAL, before) && Suppressed(After(INITIAL, before), nn)
              && CanHappen(After(INITIAL, before), [Enter(nn)] + after)
              && var s := After(After(INITIAL, before), [Enter(nn)] + after);
              && !Started([Enter(nn)] + after, Key(nn)) && !Suppressed(s, nn) && !Carried(s, Key(nn)) && s.calls == map[]
  {
    var filling := Fill(CAPACITY);
    var s0 := After(INITIAL, filling);
    var nn := Nth(CAPACITY);
    NthKeys(CAPACITY);
    Append(INITIAL, filling, Enter(nn));
    var before := filling + [Enter(nn)];
    var s1 := Next(s0, Enter(nn));
    var s3 := Next(s1, Send(CAPACITY));
    var s4 := Next(s3, RollBack(CAPACITY));
    assert Next(s1, Enter(nn)) == s1;
    hide CanHappen, After;
    assert CanHappen(s4, []) && After(s4, []) == s4 by {
      Nothing(s4);
    }
    Prepend(s3, RollBack(CAPACITY), []);
    Prepend(s1, Send(CAPACITY), [RollBack(CAPACITY)] + []);
    var after := [Send(CAPACITY)] + ([RollBack(CAPACITY)] + []);
    Prepend(s1, Enter(nn), after);
    assert s4.calls == map[];
    forall i | 0 <= i < CAPACITY ensures Key(s4.channel[i]) != Key(nn) {
      NthKeys(i);
    }
    assert !Carried(s4, Key(nn));
    assert !Started([Enter(nn)] + after, Key(nn));
  }

  lemma Nothing(s: State)
    ensures CanHappen(s, []) && After(s, []) == s
  {}
}
