/** What holds of ingestion in every run: any number of handlers and reconcilers, crashes anywhere, redeliveries
    and re-published bodies. */
module IngestSafety {
  import opened Types
  import opened Ingest

  // ----- The invariant

  /** `p` is `raw` with the enrichment key set: they agree on every other key. */
  ghost predicate EnrichedFrom(p: Payload, raw: Payload) {
    ENRICHMENT_KEY in p && p == raw[ENRICHMENT_KEY := p[ENRICHMENT_KEY]]
  }

  ghost predicate KeyOk(c: Config, s: State, id: MessageId)
    requires id in s.keys
  {
    var k := s.keys[id];
    && (k.status.Enriched? ==> k.enriched.Some?)
    && !k.status.Dispatched?
    && (k.enriched.Some? ==> EnrichedFrom(k.enriched.value, k.raw))
    && Count(s.writes, id) == (if k.enriched.Some? then 1 else 0)
    && Count(s.calls, id) <= PROVIDER_TRIES
    && k.reconcileCount <= Count(s.issued, id) && k.reconcileCount <= c.maxReconciles
    && AttemptsRecorded(s, id)
  }

  /** One attempt row for each subscriber that was active when the rows were made. */
  ghost predicate AttemptsRecorded(s: State, id: MessageId) {
    && id in s.attempts && id in s.activeAt
    && NoDuplicates(s.attempts[id]) && (set x | x in s.attempts[id]) == s.activeAt[id]
  }

  ghost predicate HoldsIndex(s: State, h: HandlerId) {
    && OnEvent(s, h)
    && BodyOf(s, h).id !in s.keys && BodyOf(s, h).id in s.inserting && s.inserting[BodyOf(s, h).id] == h
  }

  /** The key row is still as the handler's own insert left it, apart from what reconcilers write. */
  ghost predicate OwnsKey(s: State, h: HandlerId) {
    && OnEvent(s, h) && BodyOf(s, h).id in s.keys
    && s.keys[BodyOf(s, h).id].raw == BodyOf(s, h).payload
    && s.keys[BodyOf(s, h).id].enriched.None?
  }

  ghost predicate HandlerOk(s: State, h: HandlerId)
    requires h in s.handlers
  {
    && Knows(s, h)
    && (Unacked(s.handlers[h].stage) || s.handlers[h].tag in s.acked)
    && match s.handlers[h].stage
       case Fresh => true
       case Duplicate => OnEvent(s, h) && BodyOf(s, h).id in s.keys
       case Inserted(_) => HoldsIndex(s, h)
       case Staged(_, subs) =>
         && HoldsIndex(s, h) && NoDuplicates(subs)
         && BodyOf(s, h).id in s.activeAt && (set x | x in subs) == s.activeAt[BodyOf(s, h).id]
       case Committed => OwnsKey(s, h) && Count(s.calls, BodyOf(s, h).id) == 0
       case Enriching(n) => OwnsKey(s, h) && Count(s.calls, BodyOf(s, h).id) == n < PROVIDER_TRIES
       case HasPayload(p) =>
         OwnsKey(s, h) && Count(s.calls, BodyOf(s, h).id) <= PROVIDER_TRIES && EnrichedFrom(p, BodyOf(s, h).payload)
       case HasFatal => OwnsKey(s, h) && Count(s.calls, BodyOf(s, h).id) <= PROVIDER_TRIES
       case Done => true
  }

  /** Two handlers past the insert gate work on different messages. */
  ghost predicate Apart(s: State, g: HandlerId, h: HandlerId) {
    OnEvent(s, g) && OnEvent(s, h) && PastGate(s.handlers[g].stage) && PastGate(s.handlers[h].stage) ==>
      BodyOf(s, g).id != BodyOf(s, h).id
  }

  ghost predicate LockOk(s: State, id: MessageId)
    requires id in s.inserting
  {
    var h := s.inserting[id];
    OnEvent(s, h) && Uncommitted(s.handlers[h].stage) && BodyOf(s, h).id == id
  }

  ghost predicate EditOk(c: Config, s: State, id: MessageId, e: Edit) {
    id in s.keys && (e.Bump? ==> e.count <= Count(s.issued, id) && e.count <= c.maxReconciles)
  }

  ghost predicate CycleOk(c: Config, s: State, y: Cycle) {
    && y.pos <= |y.batch|
    && (forall i :: 0 <= i < |y.batch| ==> y.batch[i] in s.keys && y.batch[i] in y.counts)
    && (forall id :: id in y.counts ==> y.counts[id] <= Count(s.issued, id))
    && (forall id :: id in y.staged ==> EditOk(c, s, id, y.staged[id]))
  }

  ghost predicate Keys(c: Config, s: State) { forall id :: id in s.keys ==> KeyOk(c, s, id) }
  ghost predicate Handlers(s: State) { forall h :: h in s.handlers ==> HandlerOk(s, h) }
  ghost predicate Gate(s: State) { forall g, h :: g in s.handlers && h in s.handlers && g != h ==> Apart(s, g, h) }
  ghost predicate Locks(s: State) { forall id :: id in s.inserting ==> LockOk(s, id) }
  ghost predicate Cycles(c: Config, s: State) { forall q :: q in s.cycles ==> CycleOk(c, s, s.cycles[q]) }

  /** Nothing is stored or counted for an id that has no key row. */
  ghost predicate Scoped(s: State) {
    s.attempts.Keys <= s.keys.Keys && s.calls.Keys <= s.keys.Keys && s.writes.Keys <= s.keys.Keys && s.issued.Keys <= s.keys.Keys
  }

  ghost predicate Holds(s: State, h: HandlerId, t: Tag) {
    h in s.handlers && Unacked(s.handlers[h].stage) && s.handlers[h].tag == t
  }

  /** Each body published is queued, held by one handler, or acknowledged, and only one of these. */
  ghost predicate TagOk(s: State, t: Tag) {
    && !(t in s.queue && t in s.acked)
    && (t in s.queue || t in s.acked || exists h :: Holds(s, h, t))
    && (forall h :: Holds(s, h, t) ==> t !in s.queue && t !in s.acked)
    && (forall g, h :: Holds(s, g, t) && Holds(s, h, t) ==> g == h)
  }

  ghost predicate Broker(s: State) {
    && (forall t :: t in s.queue || t in s.acked || t in s.requeued ==> t < |s.bodies|)
    && (forall t: Tag :: t < |s.bodies| ==> TagOk(s, t))
  }

  /** An acknowledged body is unusable, or its key row and its attempts are committed. */
  ghost predicate AckOk(s: State, t: Tag) {
    t < |s.bodies| && (s.bodies[t].Event? ==> s.bodies[t].id in s.keys && AttemptsRecorded(s, s.bodies[t].id))
  }

  ghost predicate Acks(s: State) { forall t :: t in s.acked ==> AckOk(s, t) }

  /** What reconcilers publish carries an id that has a key row. */
  ghost predicate Requeues(s: State) {
    forall t :: t in s.requeued ==> t < |s.bodies| && s.bodies[t].Event? && s.bodies[t].id in s.keys
  }

  ghost predicate Safe(c: Config, s: State) {
    && Keys(c, s) && Handlers(s) && Gate(s) && Locks(s) && Cycles(c, s) && Scoped(s)
    && Broker(s) && Acks(s) && Requeues(s)
  }

  // ----- Steps of handlers

  predicate Engaged(g: Stage) { Uncommitted(g) || PastGate(g) }

  /** A handler leaves a message alone that another one is engaged with. */
  lemma EngagedIsExclusive(s: State, h: HandlerId, a: HandlerAction, g: HandlerId)
    requires CanHandle(s, h, a) && g != h && g in s.handlers && HandlerOk(s, g) && HandlerOk(s, h) && Apart(s, g, h)
    requires Engaged(s.handlers[g].stage)
    ensures OnEvent(s, g) && SameFor(s, HandleStep(s, h, a), BodyOf(s, g).id)
  {
    hide HandleStep;
    if IsFor(s, h, BodyOf(s, g).id) {
      IdleHandlersWriteNothing(s, h, a);
    }
  }

  lemma IdleHandlersWriteNothing(s: State, h: HandlerId, a: HandlerAction)
    requires CanHandle(s, h, a) && OnEvent(s, h) && !Engaged(s.handlers[h].stage)
    requires a.Insert? ==> BodyOf(s, h).id in s.keys
    ensures SameFor(s, HandleStep(s, h, a), BodyOf(s, h).id)
  {
    hide AfterList, AfterCommit, AfterCall, AfterPersist, AfterError;
  }

  lemma OthersKept(s: State, h: HandlerId, a: HandlerAction, g: HandlerId)
    requires CanHandle(s, h, a) && g != h && g in s.handlers && HandlerOk(s, g) && HandlerOk(s, h) && Apart(s, g, h)
    ensures g in HandleStep(s, h, a).handlers && HandlerOk(HandleStep(s, h, a), g)
  {
    hide HandleStep, CanHandle;
    if Engaged(s.handlers[g].stage) {
      EngagedIsExclusive(s, h, a, g);
    }
  }

  lemma InsertingOk(s: State, h: HandlerId)
    requires OnEvent(s, h) && s.handlers[h].stage.Fresh?
    ensures h in AfterInsert(s, h).handlers && HandlerOk(AfterInsert(s, h), h)
  {
    hide HandlerLocal;
  }

  lemma ListingOk(s: State, h: HandlerId, order: seq<SubscriberId>)
    requires CanHandle(s, h, ListSubscribers(order)) && HandlerOk(s, h)
    ensures h in AfterList(s, h, order).handlers && HandlerOk(AfterList(s, h, order), h)
  {
    hide HandlerLocal;
  }

  lemma CommittingOk(s: State, h: HandlerId)
    requires CanHandle(s, h, CommitInsert) && HandlerOk(s, h) && Scoped(s)
    ensures h in AfterCommit(s, h).handlers && HandlerOk(AfterCommit(s, h), h)
  {
    hide HandlerLocal;
  }

  lemma EnrichingOk(s: State, h: HandlerId, a: HandlerAction)
    requires CanHandle(s, h, a) && HandlerOk(s, h)
    requires a.Ack? || a.CallProvider? || a.Persist? || a.PersistError?
    ensures h in HandleStep(s, h, a).handlers && HandlerOk(HandleStep(s, h, a), h)
  {
    hide AfterInsert, AfterList, AfterCommit, AfterDeath, SameFor, OnlyHandler;
  }

  lemma ActorKept(s: State, h: HandlerId, a: HandlerAction)
    requires CanHandle(s, h, a) && HandlerOk(s, h) && Scoped(s)
    requires h in HandleStep(s, h, a).handlers
    ensures HandlerOk(HandleStep(s, h, a), h)
  {
    hide AfterCall, AfterPersist, AfterError, AfterAck, AfterInsert, AfterList, AfterCommit, HandlerOk, HandlerLocal;
    match a
    case Insert => InsertingOk(s, h);
    case ListSubscribers(order) => ListingOk(s, h, order);
    case CommitInsert => CommittingOk(s, h);
    case Die =>
    case _ => EnrichingOk(s, h, a);
  }

  lemma KeyHandled(c: Config, s: State, h: HandlerId, a: HandlerAction, id: MessageId)
    requires CanHandle(s, h, a) && HandlerOk(s, h) && id in HandleStep(s, h, a).keys
    requires id in s.keys ==> KeyOk(c, s, id)
    requires Scoped(s)
    ensures KeyOk(c, HandleStep(s, h, a), id)
  {
    if !IsFor(s, h, id) {
      hide HandleStep, CanHandle;
      assert SameFor(s, HandleStep(s, h, a), id);
    } else {
      hide HandlerLocal;
    }
  }

  lemma GateHandled(s: State, h: HandlerId, a: HandlerAction, g: HandlerId)
    requires CanHandle(s, h, a) && g != h && g in s.handlers && HandlerOk(s, g) && HandlerOk(s, h) && Apart(s, g, h)
    requires h in HandleStep(s, h, a).handlers
    ensures Apart(HandleStep(s, h, a), g, h) && Apart(HandleStep(s, h, a), h, g)
  {
    hide HandleStep, CanHandle;
    NewlyPastGate(s, h, a);
  }

  /** Only a commit takes a handler past the gate, and only for an id without a key row. */
  lemma NewlyPastGate(s: State, h: HandlerId, a: HandlerAction)
    requires CanHandle(s, h, a) && HandlerOk(s, h) && h in HandleStep(s, h, a).handlers
    ensures HandleStep(s, h, a).handlers[h].tag == s.handlers[h].tag
    ensures PastGate(HandleStep(s, h, a).handlers[h].stage) ==>
      PastGate(s.handlers[h].stage) || (OnEvent(s, h) && BodyOf(s, h).id !in s.keys)
  {
    hide HandlerLocal;
  }

  lemma LockHandled(s: State, h: HandlerId, a: HandlerAction, id: MessageId)
    requires CanHandle(s, h, a) && HandlerOk(s, h) && id in HandleStep(s, h, a).inserting
    requires id in s.inserting ==> LockOk(s, id)
    ensures LockOk(HandleStep(s, h, a), id)
  {
    if !IsFor(s, h, id) {
      hide HandleStep, CanHandle;
      assert SameFor(s, HandleStep(s, h, a), id);
    } else {
      hide HandlerLocal;
    }
  }

  lemma HandlerScoped(s: State, h: HandlerId, a: HandlerAction)
    requires CanHandle(s, h, a) && HandlerOk(s, h) && Scoped(s)
    ensures Scoped(HandleStep(s, h, a))
  {
    hide HandlerLocal;
  }

  lemma TagHandled(s: State, h: HandlerId, a: HandlerAction, t: Tag)
    requires CanHandle(s, h, a) && HandlerOk(s, h) && TagOk(s, t)
    ensures TagOk(HandleStep(s, h, a), t)
  {
    hide HandleStep, CanHandle;
    TagsMove(s, h, a);
    var s' := HandleStep(s, h, a);
    forall g | g != h ensures Holds(s', g, t) <==> Holds(s, g, t) {}
  }

  /** A step of a handler keeps its hold on its message, acknowledges it, or puts it back. */
  lemma TagsMove(s: State, h: HandlerId, a: HandlerAction)
    requires CanHandle(s, h, a) && HandlerOk(s, h)
    ensures var s', t := HandleStep(s, h, a), s.handlers[h].tag;
      || (s'.queue == s.queue && s'.acked == s.acked && (forall x :: Holds(s', h, x) <==> Holds(s, h, x)))
      || (Holds(s, h, t) && s'.queue == s.queue && s'.acked == s.acked + {t} && (forall x :: !Holds(s', h, x)))
      || (Holds(s, h, t) && s'.queue == s.queue + {t} && s'.acked == s.acked && (forall x :: !Holds(s', h, x)))
  {
    hide HandlerLocal;
  }

  lemma AckHandled(c: Config, s: State, h: HandlerId, a: HandlerAction, t: Tag)
    requires CanHandle(s, h, a) && HandlerOk(s, h) && Scoped(s)
    requires t in HandleStep(s, h, a).acked && (t in s.acked ==> AckOk(s, t))
    requires Keys(c, s)
    ensures AckOk(HandleStep(s, h, a), t)
  {
    hide HandlerLocal;
  }

  // ----- Steps of reconcilers and of the environment

  /** Nothing a handler relies on changes: reconcilers write counts, statuses and errors only. */
  ghost predicate Quiet(s: State, s': State) {
    && s'.handlers == s.handlers && s'.inserting == s.inserting && s'.attempts == s.attempts
    && s'.calls == s.calls && s'.writes == s.writes && s'.activeAt == s.activeAt && s'.acked == s.acked
    && s.bodies <= s'.bodies
    && s'.keys.Keys == s.keys.Keys
    && forall id :: id in s.keys ==> s'.keys[id].raw == s.keys[id].raw && s'.keys[id].enriched == s.keys[id].enriched
  }

  lemma QuietKeeps(s: State, s': State)
    requires Quiet(s, s') && Handlers(s) && Gate(s) && Locks(s) && Acks(s)
    ensures Handlers(s') && Gate(s') && Locks(s') && Acks(s')
  {
    forall h | h in s'.handlers ensures HandlerOk(s', h) { assert HandlerOk(s, h); }
    forall g, h | g in s'.handlers && h in s'.handlers && g != h ensures Apart(s', g, h) {
      assert Apart(s, g, h) && HandlerOk(s, g) && HandlerOk(s, h);
    }
    forall id | id in s'.inserting ensures LockOk(s', id) { assert LockOk(s, id); }
    forall t | t in s'.acked ensures AckOk(s', t) { assert AckOk(s, t); }
  }

  lemma ReconcilingIsQuiet(c: Config, s: State, q: ReconcilerId, a: CycleAction)
    requires CanReconcile(c, s, q, a)
    ensures Quiet(s, ReconcileStep(c, s, q, a))
  {
  }

  lemma KeyReconciled(c: Config, s: State, q: ReconcilerId, a: CycleAction, id: MessageId)
    requires CanReconcile(c, s, q, a) && id in s.keys && KeyOk(c, s, id) && CycleOk(c, s, s.cycles[q])
    ensures KeyOk(c, ReconcileStep(c, s, q, a), id)
  {
    ReconcilingIsQuiet(c, s, q, a);
    if a.CommitCycle? && id in s.cycles[q].staged {
      assert EditOk(c, s, id, s.cycles[q].staged[id]);
    }
  }

  lemma CycleMoves(c: Config, s: State, q: ReconcilerId, a: CycleAction)
    requires CanReconcile(c, s, q, a) && CycleOk(c, s, s.cycles[q])
    requires q in ReconcileStep(c, s, q, a).cycles
    ensures CycleOk(c, ReconcileStep(c, s, q, a), ReconcileStep(c, s, q, a).cycles[q])
  {
    var s' := ReconcileStep(c, s, q, a);
    var y, y' := s.cycles[q], s'.cycles[q];
    assert y.batch[y.pos] in s.keys;
    forall id | id in y'.staged ensures EditOk(c, s', id, y'.staged[id]) {
      assert id in y.staged ==> EditOk(c, s, id, y.staged[id]);
    }
  }

  lemma CycleWaits(c: Config, s: State, s': State, y: Cycle)
    requires CycleOk(c, s, y) && s.keys.Keys <= s'.keys.Keys
    requires forall id :: Count(s.issued, id) <= Count(s'.issued, id)
    ensures CycleOk(c, s', y)
  {
    forall id | id in y.staged ensures EditOk(c, s', id, y.staged[id]) {
      assert EditOk(c, s, id, y.staged[id]);
    }
  }

  lemma IssuedGrows(c: Config, s: State, q: ReconcilerId, a: CycleAction, id: MessageId)
    requires CanReconcile(c, s, q, a)
    ensures Count(s.issued, id) <= Count(ReconcileStep(c, s, q, a).issued, id)
  {
  }

  lemma CyclesReconciled(c: Config, s: State, q: ReconcilerId, a: CycleAction)
    requires CanReconcile(c, s, q, a) && Cycles(c, s)
    ensures Cycles(c, ReconcileStep(c, s, q, a))
  {
    hide ReconcileStep, CanReconcile, CycleOk;
    var s' := ReconcileStep(c, s, q, a);
    ReconcilingIsQuiet(c, s, q, a);
    OtherCycles(c, s, q, a);
    forall id ensures Count(s.issued, id) <= Count(s'.issued, id) { IssuedGrows(c, s, q, a, id); }
    forall p | p in s'.cycles ensures CycleOk(c, s', s'.cycles[p]) {
      if p == q { CycleMoves(c, s, q, a); } else { CycleWaits(c, s, s', s.cycles[p]); }
    }
  }

  ghost predicate OnlyCycle(m: map<ReconcilerId, Cycle>, m': map<ReconcilerId, Cycle>, q: ReconcilerId) {
    m' == m - {q} || (q in m' && m' == m[q := m'[q]])
  }

  lemma OtherCycles(c: Config, s: State, q: ReconcilerId, a: CycleAction)
    requires CanReconcile(c, s, q, a)
    ensures q in s.cycles
    ensures OnlyCycle(s.cycles, ReconcileStep(c, s, q, a).cycles, q)
  {
  }

  /** New bodies are queued; nothing else about the broker changes. */
  ghost predicate Queues(s: State, s': State) {
    && s'.handlers == s.handlers && s'.acked == s.acked
    && ((s'.bodies == s.bodies && s'.queue == s.queue) ||
        (s.bodies <= s'.bodies && |s'.bodies| == |s.bodies| + 1 && s'.queue == s.queue + {|s.bodies|}))
  }

  lemma QueuesKeeps(s: State, s': State)
    requires Queues(s, s') && Broker(s) && Handlers(s)
    requires forall t :: t in s'.requeued ==> t < |s'.bodies|
    ensures Broker(s')
  {
    forall t: Tag | t < |s'.bodies| ensures TagOk(s', t) {
      if t < |s.bodies| {
        assert TagOk(s, t);
        forall h ensures Holds(s', h, t) <==> Holds(s, h, t) {}
      } else {
        forall h ensures !Holds(s', h, t) {
          assert h in s.handlers ==> HandlerOk(s, h);
        }
      }
    }
  }

  lemma PublishingQueues(c: Config, s: State, q: ReconcilerId, a: CycleAction)
    requires CanReconcile(c, s, q, a) && Requeues(s) && Scoped(s)
    ensures Queues(s, ReconcileStep(c, s, q, a)) && Requeues(ReconcileStep(c, s, q, a)) && Scoped(ReconcileStep(c, s, q, a))
  {
  }

  lemma SafeReconciled(c: Config, s: State, q: ReconcilerId, a: CycleAction)
    requires Safe(c, s) && CanReconcile(c, s, q, a)
    ensures Safe(c, ReconcileStep(c, s, q, a))
  {
    hide ReconcileStep, CanReconcile, CycleOk, HandlerOk, Gate, Locks, Acks, TagOk;
    var s' := ReconcileStep(c, s, q, a);
    ReconcilingIsQuiet(c, s, q, a);
    QuietKeeps(s, s');
    OtherCycles(c, s, q, a);
    CyclesReconciled(c, s, q, a);
    PublishingQueues(c, s, q, a);
    QueuesKeeps(s, s');
    forall id | id in s'.keys ensures KeyOk(c, s', id) { KeyReconciled(c, s, q, a, id); }
  }

  lemma SafeHandled(c: Config, s: State, h: HandlerId, a: HandlerAction)
    requires Safe(c, s) && CanHandle(s, h, a)
    ensures Safe(c, HandleStep(s, h, a))
  {
    hide HandleStep, CanHandle, HandlerOk, KeyOk, LockOk, CycleOk, TagOk, AckOk, Apart;
    var s' := HandleStep(s, h, a);
    HandlersAreKnown(s, h, a);
    HandlerScoped(s, h, a);
    BrokerBounds(s, h, a);
    forall id | id in s'.keys ensures KeyOk(c, s', id) { KeyHandled(c, s, h, a, id); }
    forall g | g in s'.handlers ensures HandlerOk(s', g) {
      if g == h { ActorKept(s, h, a); } else { OthersKept(s, h, a, g); }
    }
    forall f, g | f in s'.handlers && g in s'.handlers && f != g ensures Apart(s', f, g) {
      if f == h { GateHandled(s, h, a, g); } else if g == h { GateHandled(s, h, a, f); } else { BystandersApart(s, h, a, f, g); }
    }
    forall id | id in s'.inserting ensures LockOk(s', id) { LockHandled(s, h, a, id); }
    forall q | q in s'.cycles ensures CycleOk(c, s', s'.cycles[q]) { CycleWaits(c, s, s', s.cycles[q]); }
    forall t: Tag | t < |s'.bodies| ensures TagOk(s', t) { TagHandled(s, h, a, t); }
    forall t | t in s'.acked ensures AckOk(s', t) { AckHandled(c, s, h, a, t); }
  }

  lemma HandlersAreKnown(s: State, h: HandlerId, a: HandlerAction)
    requires CanHandle(s, h, a)
    ensures Knows(s, h)
  {
  }

  lemma BystandersApart(s: State, h: HandlerId, a: HandlerAction, f: HandlerId, g: HandlerId)
    requires CanHandle(s, h, a) && f != h && g != h && f in s.handlers && g in s.handlers && Apart(s, f, g)
    ensures Apart(HandleStep(s, h, a), f, g)
  {
    hide HandleStep, CanHandle, SameFor;
  }

  lemma BrokerBounds(s: State, h: HandlerId, a: HandlerAction)
    requires CanHandle(s, h, a) && HandlerOk(s, h) && Broker(s)
    ensures forall t :: t in HandleStep(s, h, a).queue || t in HandleStep(s, h, a).acked ==> t < |s.bodies|
  {
    hide HandleStep, CanHandle, TagOk;
    TagsMove(s, h, a);
  }

  function AfterDeliver(s: State, h: HandlerId, tag: Tag): State {
    s.(handlers := s.handlers[h := Handler(tag, Fresh)], queue := s.queue - {tag})
  }

  lemma DeliveredTag(s: State, h: HandlerId, tag: Tag, t: Tag)
    requires h !in s.handlers && tag in s.queue && TagOk(s, t) && TagOk(s, tag)
    ensures TagOk(AfterDeliver(s, h, tag), t)
  {
    var s' := AfterDeliver(s, h, tag);
    forall g ensures Holds(s', g, t) <==> if g == h then t == tag else Holds(s, g, t) {}
    assert Holds(s', h, tag);
    if g :| Holds(s, g, t) { assert Holds(s', g, t); }
  }

  lemma DeliveredHandlers(s: State, h: HandlerId, tag: Tag)
    requires h !in s.handlers && tag < |s.bodies| && Handlers(s) && Gate(s)
    ensures Handlers(AfterDeliver(s, h, tag)) && Gate(AfterDeliver(s, h, tag))
  {
    var s' := AfterDeliver(s, h, tag);
    forall g | g in s'.handlers ensures HandlerOk(s', g) { assert g != h ==> HandlerOk(s, g); }
    forall f, g | f in s'.handlers && g in s'.handlers && f != g ensures Apart(s', f, g) {
      assert f != h && g != h ==> Apart(s, f, g);
    }
  }

  lemma DeliveredTables(c: Config, s: State, h: HandlerId, tag: Tag)
    requires h !in s.handlers && Keys(c, s) && Locks(s) && Cycles(c, s) && Acks(s) && Requeues(s) && Scoped(s)
    ensures var s' := AfterDeliver(s, h, tag);
      Keys(c, s') && Locks(s') && Cycles(c, s') && Acks(s') && Requeues(s') && Scoped(s')
  {
    var s' := AfterDeliver(s, h, tag);
    forall id | id in s'.keys ensures KeyOk(c, s', id) { assert KeyOk(c, s, id); }
    forall id | id in s'.inserting ensures LockOk(s', id) { assert LockOk(s, id); }
    forall q | q in s'.cycles ensures CycleOk(c, s', s'.cycles[q]) { CycleWaits(c, s, s', s.cycles[q]); }
    forall t | t in s'.acked ensures AckOk(s', t) { assert AckOk(s, t); }
  }

  /** A message is handed to a new handler. */
  lemma SafeDelivered(c: Config, s: State, h: HandlerId, tag: Tag)
    requires Safe(c, s) && h !in s.handlers && tag in s.queue
    ensures Safe(c, AfterDeliver(s, h, tag))
  {
    hide Keys, Handlers, Gate, Locks, Cycles, Acks, Requeues, Scoped, TagOk;
    DeliveredHandlers(s, h, tag);
    DeliveredTables(c, s, h, tag);
    forall t: Tag | t < |s.bodies| ensures TagOk(AfterDeliver(s, h, tag), t) { DeliveredTag(s, h, tag, t); }
    RequeuedTagsExist(c, s);
  }

  lemma RequeuedTagsExist(c: Config, s: State)
    requires Requeues(s)
    ensures forall t :: t in s.requeued ==> t < |s.bodies|
  {
  }

  lemma CalmIsQuiet(c: Config, s: State, e: Event)
    requires !e.Handle? && !e.Reconcile? && !e.Deliver? && CanHappen(c, s, e)
    ensures var s' := Happen(c, s, e);
      Quiet(s, s') && Queues(s, s') && s'.keys == s.keys && s'.issued == s.issued && s'.requeued == s.requeued
  {
  }

  lemma CyclesHappened(c: Config, s: State, e: Event)
    requires !e.Handle? && !e.Reconcile? && !e.Deliver? && CanHappen(c, s, e) && Cycles(c, s) && Keys(c, s)
    ensures Cycles(c, Happen(c, s, e))
  {
    var s' := Happen(c, s, e);
    forall q | q in s'.cycles ensures CycleOk(c, s', s'.cycles[q]) {
      if q in s.cycles {
        CycleWaits(c, s, s', s.cycles[q]);
      } else {
        forall id | id in s'.cycles[q].counts ensures s'.cycles[q].counts[id] <= Count(s'.issued, id) { assert KeyOk(c, s, id); }
      }
    }
  }

  lemma SafeHappened(c: Config, s: State, e: Event)
    requires Safe(c, s) && !e.Handle? && !e.Reconcile? && CanHappen(c, s, e)
    ensures Safe(c, Happen(c, s, e))
  {
    hide CycleOk, HandlerOk, KeyOk, Gate, Locks, Acks, TagOk, Cycles;
    if e.Deliver? {
      hide Safe;
      SafeDelivered(c, s, e.h, e.tag);
      assert Happen(c, s, e) == AfterDeliver(s, e.h, e.tag);
    } else {
      hide Happen, CanHappen;
      var s' := Happen(c, s, e);
      CalmIsQuiet(c, s, e);
      QuietKeeps(s, s');
      QueuesKeeps(s, s');
      CyclesHappened(c, s, e);
      KeysHappened(c, s, s');
    }
  }

  lemma KeysHappened(c: Config, s: State, s': State)
    requires Keys(c, s) && Quiet(s, s') && s'.keys == s.keys && s'.issued == s.issued
    ensures Keys(c, s')
  {
    forall id | id in s'.keys ensures KeyOk(c, s', id) { assert KeyOk(c, s, id); }
  }

  lemma SafeStep(c: Config, s: State, e: Event)
    requires Safe(c, s) && Enabled(c, s, e)
    ensures Safe(c, Apply(c, s, e))
  {
    hide CanHandle, HandleStep, CanReconcile, ReconcileStep, CanHappen, Happen, Safe;
    match e
    case Handle(h, a) => SafeHandled(c, s, h, a);
    case Reconcile(q, a) => SafeReconciled(c, s, q, a);
    case _ => SafeHappened(c, s, e);
  }

  lemma {:induction false} SafeRun(c: Config, s: State, es: seq<Event>)
    requires Safe(c, s) && IsRun(c, s, es)
    ensures Safe(c, After(c, s, es))
    decreases |es|
  {
    hide Enabled, Apply, Safe;
    if es != [] {
      SafeStep(c, s, es[0]);
      SafeRun(c, Apply(c, s, es[0]), es[1..]);
    }
  }

  lemma SafeInitially(c: Config, s: State)
    requires Initial(s)
    ensures Safe(c, s)
  {
  }
}
