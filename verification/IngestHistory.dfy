/** What the history of the ingestion machine counts, whose attempts are made, and what reconcilers publish and leave
    alone, in terms of the events of a run and the stored columns alone. */
module IngestHistory {
  import opened Types
  import opened Ingest
  import opened IngestSafety
  import opened IngestTheorems

  // ----- The history is the tally of the run

  /** Handler h works on the message `id`. */
  predicate WorksOn(s: State, h: HandlerId, id: MessageId) {
    && h in s.handlers && s.handlers[h].tag < |s.bodies|
    && s.bodies[s.handlers[h].tag].Event? && s.bodies[s.handlers[h].tag].id == id
  }

  /** Reconciler q has come to the row of `id`. */
  predicate HasComeTo(s: State, q: ReconcilerId, id: MessageId) {
    q in s.cycles && s.cycles[q].pos < |s.cycles[q].batch| && s.cycles[q].batch[s.cycles[q].pos] == id
  }

  function One(b: bool): nat { if b then 1 else 0 }

  predicate Calls(s: State, e: Event, id: MessageId) { e.Handle? && e.action.CallProvider? && WorksOn(s, e.h, id) }
  predicate Writes(s: State, e: Event, id: MessageId) { e.Handle? && e.action.Persist? && WorksOn(s, e.h, id) }
  predicate Issues(s: State, e: Event, id: MessageId) { e.Reconcile? && e.step.Publish? && HasComeTo(s, e.q, id) }

  datatype Counts = Counts(calls: nat, writes: nat, issued: nat)

  function CountsIn(s: State, id: MessageId): Counts { Counts(Count(s.calls, id), Count(s.writes, id), Count(s.issued, id)) }

  ghost function Tally(c: Config, s: State, es: seq<Event>, id: MessageId, n: Counts): Counts
    requires IsRun(c, s, es)
    decreases |es|
  {
    if es == [] then n else Tally(c, Apply(c, s, es[0]), es[1..], id, Noted(s, es[0], id, n))
  }

  function Noted(s: State, e: Event, id: MessageId, n: Counts): Counts {
    Counts(n.calls + One(Calls(s, e, id)), n.writes + One(Writes(s, e, id)), n.issued + One(Issues(s, e, id)))
  }

  lemma HandlerCounted(s: State, h: HandlerId, a: HandlerAction, id: MessageId)
    requires CanHandle(s, h, a)
    ensures var s', e := HandleStep(s, h, a), Handle(h, a);
      && Count(s'.calls, id) == Count(s.calls, id) + One(Calls(s, e, id))
      && Count(s'.writes, id) == Count(s.writes, id) + One(Writes(s, e, id))
      && s'.issued == s.issued
  {
    hide HandlerLocal;
  }

  lemma ReconcilerCounted(c: Config, s: State, q: ReconcilerId, a: CycleAction, id: MessageId)
    requires CanReconcile(c, s, q, a)
    ensures var s' := ReconcileStep(c, s, q, a);
      s'.calls == s.calls && s'.writes == s.writes && Count(s'.issued, id) == Count(s.issued, id) + One(Issues(s, Reconcile(q, a), id))
  {
    hide Flush;
  }

  lemma StepCounted(c: Config, s: State, e: Event, id: MessageId)
    requires Enabled(c, s, e)
    ensures CountsIn(Apply(c, s, e), id) == Noted(s, e, id, CountsIn(s, id))
  {
    hide CanHandle, HandleStep, CanReconcile, ReconcileStep, WorksOn, HasComeTo, Count;
    match e
    case Handle(h, a) => HandlerCounted(s, h, a, id);
    case Reconcile(q, a) => ReconcilerCounted(c, s, q, a, id);
    case _ =>
  }

  lemma {:induction false} RunCounted(c: Config, s: State, es: seq<Event>, id: MessageId)
    requires IsRun(c, s, es)
    ensures CountsIn(After(c, s, es), id) == Tally(c, s, es, id, CountsIn(s, id))
    decreases |es|
  {
    hide Enabled, Apply, CountsIn, Noted;
    if es != [] {
      StepCounted(c, s, es[0], id);
      RunCounted(c, Apply(c, s, es[0]), es[1..], id);
    }
  }

  /** The history of an id is exactly what happened to it in the run: provider calls, payload writes, and publish calls
      of reconcilers, whether or not they reached the broker. */
  lemma HistoryIsTheTally(c: Config, s0: State, es: seq<Event>, id: MessageId)
    requires Reached(c, s0, es)
    ensures CountsIn(After(c, s0, es), id) == Tally(c, s0, es, id, Counts(0, 0, 0))
  {
    RunCounted(c, s0, es, id);
  }

  // ----- Keys that are not stale

  ghost predicate Untouched(c: Config, s: State, id: MessageId) {
    id in s.keys && s.clock <= s.keys[id].receivedAt + c.staleAfter ==>
      && Count(s.issued, id) == 0
      && s.keys[id].reconcileCount == 0 && s.keys[id].status != Abandoned
      && forall q :: q in s.cycles ==> id !in s.cycles[q].batch && id !in s.cycles[q].staged
  }

  lemma UntouchedHandled(c: Config, s: State, h: HandlerId, a: HandlerAction, id: MessageId)
    requires Safe(c, s) && Untouched(c, s, id) && CanHandle(s, h, a)
    ensures Untouched(c, HandleStep(s, h, a), id)
  {
    hide HandlerLocal, Keys, Gate, Locks, Broker, Acks, Requeues;
    assert h in s.handlers ==> HandlerOk(s, h);
    forall q | q in s.cycles && id !in s.keys ensures id !in s.cycles[q].batch && id !in s.cycles[q].staged {
      assert CycleOk(c, s, s.cycles[q]);
    }
  }

  lemma UntouchedReconciled(c: Config, s: State, q: ReconcilerId, a: CycleAction, id: MessageId)
    requires Untouched(c, s, id) && CanReconcile(c, s, q, a)
    ensures Untouched(c, ReconcileStep(c, s, q, a), id)
  {
  }

  lemma UntouchedHappened(c: Config, s: State, e: Event, id: MessageId)
    requires !e.Handle? && !e.Reconcile? && Untouched(c, s, id) && CanHappen(c, s, e)
    ensures Untouched(c, Happen(c, s, e), id)
  {
  }

  lemma {:induction false} UntouchedRun(c: Config, s: State, es: seq<Event>, id: MessageId)
    requires Safe(c, s) && IsRun(c, s, es) && Untouched(c, s, id)
    ensures Untouched(c, After(c, s, es), id)
    decreases |es|
  {
    hide CanHandle, HandleStep, CanReconcile, ReconcileStep, CanHappen, Happen, Safe, Untouched;
    if es != [] {
      var e := es[0];
      match e {
        case Handle(h, a) => UntouchedHandled(c, s, h, a, id);
        case Reconcile(q, a) => UntouchedReconciled(c, s, q, a, id);
        case _ => UntouchedHappened(c, s, e, id);
      }
      SafeStep(c, s, e);
      UntouchedRun(c, Apply(c, s, e), es[1..], id);
    }
  }

  /** Reconcilers leave a message alone until it is stale: as long as it is not older than the stale age, no publish call
      has been issued for it, its count is zero and it has not been given up. */
  lemma YoungKeysAreUntouched(c: Config, s0: State, es: seq<Event>, id: MessageId)
    requires Reached(c, s0, es) && id in After(c, s0, es).keys
    requires After(c, s0, es).clock <= After(c, s0, es).keys[id].receivedAt + c.staleAfter
    ensures var s := After(c, s0, es);
      Count(s.issued, id) == 0 && s.keys[id].reconcileCount == 0 && s.keys[id].status != Abandoned
  {
    SafeInitially(c, s0);
    UntouchedRun(c, s0, es, id);
  }

  // ----- What reconcilers publish

  /** Each re-published body is the message as it was ingested. */
  ghost predicate Originals(s: State) {
    forall t :: t in s.requeued ==>
      && t < |s.bodies| && s.bodies[t].Event? && s.bodies[t].id in s.keys
      && s.bodies[t].kind == s.keys[s.bodies[t].id].kind && s.bodies[t].payload == s.keys[s.bodies[t].id].raw
  }

  /** A message keeps its kind and its raw payload. */
  ghost predicate SameOriginals(s: State, s': State) {
    forall id :: id in s.keys ==> id in s'.keys && s'.keys[id].kind == s.keys[id].kind && s'.keys[id].raw == s.keys[id].raw
  }

  lemma OriginalsHandled(c: Config, s: State, h: HandlerId, a: HandlerAction)
    requires Safe(c, s) && CanHandle(s, h, a)
    ensures SameOriginals(s, HandleStep(s, h, a))
    ensures HandleStep(s, h, a).bodies == s.bodies && HandleStep(s, h, a).requeued == s.requeued
  {
    hide HandlerLocal, Keys, Gate, Locks, Cycles, Broker, Acks, Requeues;
    assert h in s.handlers ==> HandlerOk(s, h);
  }

  /** A publish call that reaches the broker queues one body: the id, kind and raw payload of the row. One that does not
      reach it queues nothing. */
  lemma PublishedAgain(c: Config, s: State, q: ReconcilerId, result: PublishResult, reached: bool)
    requires CanReconcile(c, s, q, Publish(result, reached))
    ensures var s' := ReconcileStep(c, s, q, Publish(result, reached));
      && q in s.cycles && s.cycles[q].pos < |s.cycles[q].batch|
      && var id := s.cycles[q].batch[s.cycles[q].pos];
         && id in s.keys
         && s'.bodies == s.bodies + (if reached then [Body.Event(id, s.keys[id].kind, s.keys[id].raw)] else [])
         && s'.queue == s.queue + (if reached then {|s.bodies|} else {})
         && s'.requeued == s.requeued + (if reached then {|s.bodies|} else {})
         && (result == Sent ==> reached)
  {
  }

  lemma OriginalsReconciled(c: Config, s: State, q: ReconcilerId, a: CycleAction)
    requires CanReconcile(c, s, q, a) && Originals(s)
    ensures Originals(ReconcileStep(c, s, q, a))
  {
    KindsStay(c, s, q, a);
    ReconcilingIsQuiet(c, s, q, a);
    if a.Publish? {
      PublishedAgain(c, s, q, a.result, a.reached);
      hide ReconcileStep, CanReconcile;
    } else {
      NothingPublished(c, s, q, a);
      hide ReconcileStep, CanReconcile;
    }
  }

  lemma NothingPublished(c: Config, s: State, q: ReconcilerId, a: CycleAction)
    requires CanReconcile(c, s, q, a) && !a.Publish?
    ensures ReconcileStep(c, s, q, a).bodies == s.bodies && ReconcileStep(c, s, q, a).requeued == s.requeued
  {
  }

  lemma OriginalsStep(c: Config, s: State, e: Event)
    requires Safe(c, s) && Originals(s) && Enabled(c, s, e)
    ensures Originals(Apply(c, s, e))
  {
    hide CanHandle, HandleStep, CanReconcile, ReconcileStep, Safe;
    match e
    case Handle(h, a) => OriginalsHandled(c, s, h, a);
    case Reconcile(q, a) => OriginalsReconciled(c, s, q, a);
    case _ =>
  }

  lemma {:induction false} OriginalsRun(c: Config, s: State, es: seq<Event>)
    requires Safe(c, s) && Originals(s) && IsRun(c, s, es)
    ensures Originals(After(c, s, es))
    decreases |es|
  {
    hide Enabled, Apply, Safe, Originals;
    if es != [] {
      OriginalsStep(c, s, es[0]);
      SafeStep(c, s, es[0]);
      OriginalsRun(c, Apply(c, s, es[0]), es[1..]);
    }
  }

  /** Every body that reconcilers have published is a message as it was ingested: its id, its kind and its raw payload. */
  lemma RequeuedBodiesAreOriginals(c: Config, s0: State, es: seq<Event>, t: Tag)
    requires Reached(c, s0, es) && t in After(c, s0, es).requeued
    ensures var s := After(c, s0, es);
      && t < |s.bodies| && s.bodies[t].Event? && s.bodies[t].id in s.keys
      && s.bodies[t] == Body.Event(s.bodies[t].id, s.keys[s.bodies[t].id].kind, s.keys[s.bodies[t].id].raw)
  {
    SafeInitially(c, s0);
    OriginalsRun(c, s0, es);
  }

  // ----- Whose attempts are made

  /** Handler h has listed `subs` for `id`, and has either committed them or still holds the insert. */
  ghost predicate Listed(s: State, h: HandlerId, id: MessageId, subs: seq<SubscriberId>) {
    || (WorksOn(s, h, id) && s.handlers[h].stage.Staged? && s.handlers[h].stage.subs == subs)
    || (id in s.keys && id in s.attempts && s.attempts[id] == subs)
  }

  lemma StoredAttemptsStay(c: Config, s: State, g: HandlerId, a: HandlerAction, id: MessageId)
    requires Safe(c, s) && CanHandle(s, g, a) && id in s.keys && id in s.attempts
    ensures var s' := HandleStep(s, g, a); id in s'.keys && id in s'.attempts && s'.attempts[id] == s.attempts[id]
  {
    if a.CommitInsert? {
      MayAssume(c, s, g, a);
      hide Safe, HandlerLocal;
      assert BodyOf(s, g).id !in s.keys;
    } else {
      hide Safe, HandleStep, CanHandle;
      RawStays(s, g, a);
    }
  }

  lemma StagedHandled(c: Config, s: State, h: HandlerId, a: HandlerAction, id: MessageId)
    requires Safe(c, s) && CanHandle(s, h, a) && WorksOn(s, h, id) && s.handlers[h].stage.Staged? && !a.Die?
    ensures Listed(HandleStep(s, h, a), h, id, s.handlers[h].stage.subs)
  {
    MayAssume(c, s, h, a);
    hide Safe, HandlerLocal;
    assert [] + s.handlers[h].stage.subs == s.handlers[h].stage.subs;
  }

  lemma StagedWaits(c: Config, s: State, g: HandlerId, a: HandlerAction, h: HandlerId, id: MessageId)
    requires CanHandle(s, g, a) && g != h && WorksOn(s, h, id)
    ensures WorksOn(HandleStep(s, g, a), h, id) && HandleStep(s, g, a).handlers[h] == s.handlers[h]
  {
    hide HandleStep, CanHandle, SameFor;
  }

  lemma ListedHandled(c: Config, s: State, g: HandlerId, a: HandlerAction, h: HandlerId, id: MessageId, subs: seq<SubscriberId>)
    requires Safe(c, s) && CanHandle(s, g, a) && Listed(s, h, id, subs) && !(g == h && a.Die?)
    ensures Listed(HandleStep(s, g, a), h, id, subs)
  {
    hide Safe, HandleStep, CanHandle, WorksOn;
    if id in s.keys && id in s.attempts && s.attempts[id] == subs {
      StoredAttemptsStay(c, s, g, a, id);
    } else if g == h {
      StagedHandled(c, s, h, a, id);
    } else {
      StagedWaits(c, s, g, a, h, id);
    }
  }

  lemma ListedReconciled(c: Config, s: State, q: ReconcilerId, a: CycleAction, h: HandlerId, id: MessageId, subs: seq<SubscriberId>)
    requires CanReconcile(c, s, q, a) && Listed(s, h, id, subs)
    ensures Listed(ReconcileStep(c, s, q, a), h, id, subs)
  {
  }

  lemma ListedHappened(c: Config, s: State, e: Event, h: HandlerId, id: MessageId, subs: seq<SubscriberId>)
    requires !e.Handle? && !e.Reconcile? && CanHappen(c, s, e) && Listed(s, h, id, subs)
    ensures Listed(Happen(c, s, e), h, id, subs)
  {
  }

  lemma ListedStep(c: Config, s: State, e: Event, h: HandlerId, id: MessageId, subs: seq<SubscriberId>)
    requires Safe(c, s) && Enabled(c, s, e) && Listed(s, h, id, subs) && e != Handle(h, Die)
    ensures Listed(Apply(c, s, e), h, id, subs)
  {
    hide CanHandle, HandleStep, CanReconcile, ReconcileStep, CanHappen, Happen, Safe, Listed;
    match e
    case Handle(g, a) => ListedHandled(c, s, g, a, h, id, subs);
    case Reconcile(q, a) => ListedReconciled(c, s, q, a, h, id, subs);
    case _ => ListedHappened(c, s, e, h, id, subs);
  }

  lemma {:induction false} ListedRun(c: Config, s: State, es: seq<Event>, h: HandlerId, id: MessageId, subs: seq<SubscriberId>)
    requires Safe(c, s) && IsRun(c, s, es) && Listed(s, h, id, subs) && Handle(h, Die) !in es
    ensures Listed(After(c, s, es), h, id, subs)
    decreases |es|
  {
    hide Enabled, Apply, Safe, Listed;
    if es != [] {
      ListedStep(c, s, es[0], h, id, subs);
      SafeStep(c, s, es[0]);
      ListedRun(c, Apply(c, s, es[0]), es[1..], h, id, subs);
    }
  }

  lemma NotBothStagedAndStored(c: Config, s: State, h: HandlerId, id: MessageId, subs: seq<SubscriberId>)
    requires Safe(c, s) && Listed(s, h, id, subs) && id in s.keys
    ensures id in s.attempts && s.attempts[id] == subs
  {
    hide Keys, Gate, Locks, Cycles, Broker, Acks, Requeues;
    assert h in s.handlers ==> HandlerOk(s, h);
  }

  lemma ListingIsListed(c: Config, s: State, h: HandlerId, order: seq<SubscriberId>)
    requires CanHandle(s, h, ListSubscribers(order))
    ensures h in s.handlers && s.handlers[h].tag < |s.bodies| && s.bodies[s.handlers[h].tag].Event?
    ensures Listed(HandleStep(s, h, ListSubscribers(order)), h, s.bodies[s.handlers[h].tag].id, order)
    ensures forall x :: x in order <==> x in s.subs && s.subs[x].active && !s.subs[x].deleted
  {
    hide HandlerLocal;
    forall x ensures x in order <==> x in s.subs && s.subs[x].active && !s.subs[x].deleted {
      assert x in order <==> x in (set y | y in order);
      assert x in (set y | y in order) <==> x in ActiveSubscribers(s.subs);
    }
  }

  /** The attempts of a message are for the subscribers that were active and not deleted when its handler listed them,
      and for no one else: if the handler gets to commit, these are its rows for ever. */
  lemma AttemptsAreForTheActive(c: Config, s0: State, es: seq<Event>, h: HandlerId, order: seq<SubscriberId>, fs: seq<Event>, x: SubscriberId)
    requires Reached(c, s0, es) && CanHandle(After(c, s0, es), h, ListSubscribers(order))
    requires IsRun(c, HandleStep(After(c, s0, es), h, ListSubscribers(order)), fs) && Handle(h, Die) !in fs
    ensures var s := After(c, s0, es);
      var t := After(c, HandleStep(s, h, ListSubscribers(order)), fs);
      && h in s.handlers && s.handlers[h].tag < |s.bodies| && s.bodies[s.handlers[h].tag].Event?
      && var id := s.bodies[s.handlers[h].tag].id;
         id in t.keys ==>
           id in t.attempts && (x in t.attempts[id] <==> x in s.subs && s.subs[x].active && !s.subs[x].deleted)
  {
    hide CanHandle, HandleStep, Safe, Listed, IsRun, After;
    ReachedIsSafe(c, s0, es);
    var s := After(c, s0, es);
    ListingIsListed(c, s, h, order);
    HandledIsRun(c, s, h, ListSubscribers(order));
    var s' := HandleStep(s, h, ListSubscribers(order));
    var id := s.bodies[s.handlers[h].tag].id;
    ListedRun(c, s', fs, h, id, order);
    SafeRun(c, s', fs);
    if id in After(c, s', fs).keys { NotBothStagedAndStored(c, After(c, s', fs), h, id, order); }
  }

  lemma HandledIsRun(c: Config, s: State, h: HandlerId, a: HandlerAction)
    requires Safe(c, s) && CanHandle(s, h, a)
    ensures Safe(c, HandleStep(s, h, a))
  {
    hide CanHandle, HandleStep, Safe;
    SafeStep(c, s, Handle(h, a));
  }
}
