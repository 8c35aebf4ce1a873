/** The broker queue, the message handlers of any number of consumers, the idempotency_keys table and any number
    of reconcilers, as one state machine. An event is one statement that takes effect, one broker exchange or one
    provider call. A handler or reconciler can die between any two events; the broker then redelivers what was not
    acknowledged. */
module Ingest {
  import opened Types

  type HandlerId = nat
  type ReconcilerId = nat
  type Tag = nat

  /** reconciler_max_attempts, reconciler_batch_size and the age at which a key counts as stale; by default 10, 100 and
      300 000 ms. */
  datatype Config = Config(maxReconciles: nat, batchSize: nat, staleAfter: nat)

  const PROVIDER_TRIES: nat := 3

  /** A queued body as `handle_message` sees it: over the size limit, not JSON, or an event. */
  datatype Body = TooLarge | NotJson | Event(id: MessageId, kind: string, payload: Payload)

  datatype KeyStatus = Received | Enriched | Dispatched | Abandoned
  datatype KeyError = Fatal | GaveUp(cycles: nat)

  datatype Key = Key(kind: string, raw: Payload, enriched: Option<Payload>, status: KeyStatus,
                     error: Option<KeyError>, reconcileCount: nat, receivedAt: int)

  // ----- Handlers

  /** How far a handler is with its message. */
  datatype Stage =
    | Fresh
    | Duplicate
    | Inserted(at: int)
    | Staged(at: int, subs: seq<SubscriberId>)
    | Committed
    | Enriching(calls: nat)
    | HasPayload(payload: Payload)
    | HasFatal
    | Done

  datatype Handler = Handler(tag: Tag, stage: Stage)

  /** The broker still waits for an acknowledgement. */
  predicate Unacked(g: Stage) { g.Fresh? || g.Duplicate? || g.Inserted? || g.Staged? || g.Committed? }

  /** The insert is not committed yet. */
  predicate Uncommitted(g: Stage) { g.Inserted? || g.Staged? }

  /** The handler's own insert has been committed and its work is not over. */
  predicate PastGate(g: Stage) { g.Committed? || g.Enriching? || g.HasPayload? || g.HasFatal? }

  datatype Answer = Enrichment(value: Json) | TransientError | FatalError

  function Enrich(raw: Payload, value: Json): Payload { raw[ENRICHMENT_KEY := value] }

  // ----- Reconcilers

  datatype Edit = Bump(count: nat) | Abandon(cycles: nat)

  /** A cycle in progress: the rows loaded with the counts they had, how many are dealt with, and the
      changes kept in the session until it commits. */
  datatype Cycle = Cycle(batch: seq<MessageId>, counts: map<MessageId, nat>, pos: nat, staged: map<MessageId, Edit>)

  datatype PublishResult = Sent | TimedOut | Raised

  function ChangeKey(k: Key, change: Edit): Key {
    match change
    case Bump(n) => k.(reconcileCount := n)
    case Abandon(n) => k.(status := Abandoned, error := Some(GaveUp(n)))
  }

  function Flush(keys: map<MessageId, Key>, staged: map<MessageId, Edit>): map<MessageId, Key> {
    map id | id in keys :: if id in staged then ChangeKey(keys[id], staged[id]) else keys[id]
  }

  // ----- Global state

  /** `inserting` holds the unique-index locks of uncommitted inserts. A tag is an index into `bodies`; each body
      ever published is queued, held by a handler, or acknowledged. The last fields are history: publish calls
      of reconcilers, provider calls and payload writes per id, the subscribers active when the attempts of an
      id were created, and the tags reconcilers published. */
  datatype State = State(
    clock: int,
    subs: Subscribers,
    keys: map<MessageId, Key>,
    attempts: map<MessageId, seq<SubscriberId>>,
    inserting: map<MessageId, HandlerId>,
    bodies: seq<Body>,
    queue: set<Tag>,
    acked: set<Tag>,
    handlers: map<HandlerId, Handler>,
    cycles: map<ReconcilerId, Cycle>,
    issued: map<MessageId, nat>,
    calls: map<MessageId, nat>,
    writes: map<MessageId, nat>,
    activeAt: map<MessageId, set<SubscriberId>>,
    requeued: set<Tag>)

  predicate Initial(s: State) {
    && s.subs == map[] && s.keys == map[] && s.attempts == map[] && s.inserting == map[] && s.bodies == []
    && s.queue == {} && s.acked == {} && s.handlers == map[] && s.cycles == map[]
    && s.issued == map[] && s.calls == map[] && s.writes == map[] && s.activeAt == map[] && s.requeued == {}
  }

  function Count(m: map<MessageId, nat>, id: MessageId): nat { if id in m then m[id] else 0 }
  function Plus(m: map<MessageId, nat>, id: MessageId): map<MessageId, nat> { m[id := Count(m, id) + 1] }

  function AttemptsOf(s: State, id: MessageId): seq<SubscriberId> { if id in s.attempts then s.attempts[id] else [] }

  function ActiveSubscribers(subs: Subscribers): set<SubscriberId> { set x | x in subs && Receives(subs, x) }

  datatype HandlerAction =
    | Insert
    | ListSubscribers(order: seq<SubscriberId>)
    | CommitInsert
    | Ack
    | CallProvider(answer: Answer)
    | Persist
    | PersistError
    | Die

  datatype CycleAction =
    | GiveUp
    | Publish(result: PublishResult, reached: bool)
    | CommitCycle
    | EndCycle

  datatype Event =
    | Handle(h: HandlerId, action: HandlerAction)
    | Reconcile(q: ReconcilerId, step: CycleAction)
    | Tick(d: nat)
    | ChangeSubscriber(change: SubscriberEvent)
    | PublishBody(body: Body)
    | Deliver(h: HandlerId, tag: Tag)
    | LoadStale(q: ReconcilerId, ids: seq<MessageId>, readAt: int)

  // ----- What handlers can do

  predicate Knows(s: State, h: HandlerId) { h in s.handlers && s.handlers[h].tag < |s.bodies| }

  function BodyOf(s: State, h: HandlerId): Body
    requires Knows(s, h)
  {
    s.bodies[s.handlers[h].tag]
  }

  /** The handler has an event body and reached `stage`-like work on it. */
  predicate OnEvent(s: State, h: HandlerId) { Knows(s, h) && BodyOf(s, h).Event? }

  predicate CanHandle(s: State, h: HandlerId, a: HandlerAction) {
    && Knows(s, h)
    && var g := s.handlers[h].stage;
       match a
       case Insert => g.Fresh? && OnEvent(s, h) && (BodyOf(s, h).id in s.keys || BodyOf(s, h).id !in s.inserting)
       case ListSubscribers(order) =>
         g.Inserted? && OnEvent(s, h) && NoDuplicates(order) && (set x | x in order) == ActiveSubscribers(s.subs)
       case CommitInsert => g.Staged? && OnEvent(s, h)
       case Ack => g.Duplicate? || g.Committed? || (g.Fresh? && !OnEvent(s, h))
       case CallProvider(_) => g.Enriching? && g.calls < PROVIDER_TRIES && OnEvent(s, h)
       case Persist => g.HasPayload? && OnEvent(s, h) && BodyOf(s, h).id in s.keys
       case PersistError => g.HasFatal? && OnEvent(s, h) && BodyOf(s, h).id in s.keys
       case Die => true
  }

  /** What a step of one handler leaves alone. */
  ghost predicate HandlerLocal(s: State, s': State, h: HandlerId) {
    && s'.bodies == s.bodies && s'.subs == s.subs && s'.cycles == s.cycles && s'.requeued == s.requeued && s'.issued == s.issued
    && s'.clock == s.clock
    && s.keys.Keys <= s'.keys.Keys
    && s.acked <= s'.acked
    && OnlyHandler(s.handlers, s'.handlers, h)
    && (forall id :: !IsFor(s, h, id) ==> SameFor(s, s', id))
  }

  ghost predicate IsFor(s: State, h: HandlerId, id: MessageId) { OnEvent(s, h) && BodyOf(s, h).id == id }

  /** The tables and counters agree on `id`. */
  ghost predicate SameFor(s: State, s': State, id: MessageId) {
    && (id in s'.keys <==> id in s.keys) && (id in s.keys ==> s'.keys[id] == s.keys[id])
    && (id in s'.inserting <==> id in s.inserting) && (id in s.inserting ==> s'.inserting[id] == s.inserting[id])
    && (id in s'.activeAt <==> id in s.activeAt) && (id in s.activeAt ==> s'.activeAt[id] == s.activeAt[id])
    && (id in s'.attempts <==> id in s.attempts) && (id in s.attempts ==> s'.attempts[id] == s.attempts[id])
    && Count(s'.calls, id) == Count(s.calls, id) && Count(s'.writes, id) == Count(s.writes, id)
  }

  ghost predicate OnlyHandler(m: map<HandlerId, Handler>, m': map<HandlerId, Handler>, h: HandlerId) {
    m' == m - {h} || (h in m' && m' == m[h := m'[h]])
  }

  function SetStage(s: State, h: HandlerId, g: Stage): (s': State)
    requires h in s.handlers
    ensures HandlerLocal(s, s', h)
  {
    s.(handlers := s.handlers[h := s.handlers[h].(stage := g)])
  }

  /** INSERT ... ON CONFLICT DO NOTHING. While another handler's insert of the same id is uncommitted it waits. */
  function AfterInsert(s: State, h: HandlerId): (s': State)
    requires OnEvent(s, h)
    ensures HandlerLocal(s, s', h)
  {
    SetStage(s, h, InsertStage(s, BodyOf(s, h).id)).(inserting := InsertLock(s, BodyOf(s, h).id, h))
  }

  function InsertStage(s: State, id: MessageId): Stage { if id in s.keys then Duplicate else Inserted(s.clock) }

  function InsertLock(s: State, id: MessageId, h: HandlerId): map<MessageId, HandlerId> {
    if id in s.keys then s.inserting else s.inserting[id := h]
  }

  function AfterList(s: State, h: HandlerId, order: seq<SubscriberId>): (s': State)
    requires OnEvent(s, h) && s.handlers[h].stage.Inserted?
    ensures HandlerLocal(s, s', h)
  {
    SetStage(s, h, Staged(s.handlers[h].stage.at, order)).(
      activeAt := s.activeAt[BodyOf(s, h).id := ActiveSubscribers(s.subs)])
  }

  function AfterCommit(s: State, h: HandlerId): (s': State)
    requires OnEvent(s, h) && s.handlers[h].stage.Staged?
    ensures HandlerLocal(s, s', h)
  {
    var g := s.handlers[h].stage;
    var b := BodyOf(s, h);
    SetStage(s, h, Committed).(
      keys := s.keys[b.id := Key(b.kind, b.payload, None, Received, None, 0, g.at)],
      attempts := s.attempts[b.id := AttemptsOf(s, b.id) + g.subs],
      inserting := s.inserting - {b.id})
  }

  function AfterAckStage(g: Stage): Stage { if g.Committed? then Enriching(0) else Done }

  function AfterAck(s: State, h: HandlerId): (s': State)
    requires h in s.handlers
    ensures HandlerLocal(s, s', h)
  {
    SetStage(s, h, AfterAckStage(s.handlers[h].stage)).(
      acked := s.acked + {s.handlers[h].tag})
  }

  function AfterAnswer(raw: Payload, tries: nat, answer: Answer): Stage {
    match answer
    case Enrichment(value) => HasPayload(Enrich(raw, value))
    case TransientError => if tries < PROVIDER_TRIES then Enriching(tries) else Done
    case FatalError => HasFatal
  }

  /** One try of the provider. Transient errors are tried again, up to the limit; then the key stays received. */
  function AfterCall(s: State, h: HandlerId, answer: Answer): (s': State)
    requires OnEvent(s, h) && s.handlers[h].stage.Enriching?
    ensures HandlerLocal(s, s', h)
  {
    SetStage(s, h, AfterAnswer(BodyOf(s, h).payload, s.handlers[h].stage.calls + 1, answer)).(
      calls := Plus(s.calls, BodyOf(s, h).id))
  }

  function AfterPersist(s: State, h: HandlerId): (s': State)
    requires OnEvent(s, h) && s.handlers[h].stage.HasPayload? && BodyOf(s, h).id in s.keys
    ensures HandlerLocal(s, s', h)
  {
    var id := BodyOf(s, h).id;
    SetStage(s, h, Done).(
      keys := s.keys[id := s.keys[id].(enriched := Some(s.handlers[h].stage.payload), status := Enriched)],
      writes := Plus(s.writes, id))
  }

  function AfterError(s: State, h: HandlerId): (s': State)
    requires OnEvent(s, h) && BodyOf(s, h).id in s.keys
    ensures HandlerLocal(s, s', h)
  {
    var id := BodyOf(s, h).id;
    SetStage(s, h, Done).(keys := s.keys[id := s.keys[id].(error := Some(Fatal))])
  }

  /** The process dies: an open transaction rolls back and an unacknowledged message returns to the queue. */
  function AfterDeath(s: State, h: HandlerId): (s': State)
    requires Knows(s, h)
    ensures HandlerLocal(s, s', h)
  {
    s.(handlers := s.handlers - {h}, queue := Requeue(s, h), inserting := Unlock(s, h))
  }

  function Requeue(s: State, h: HandlerId): set<Tag>
    requires h in s.handlers
  {
    if Unacked(s.handlers[h].stage) then s.queue + {s.handlers[h].tag} else s.queue
  }

  function Unlock(s: State, h: HandlerId): map<MessageId, HandlerId>
    requires h in s.handlers
  {
    if Uncommitted(s.handlers[h].stage) && OnEvent(s, h) then s.inserting - {BodyOf(s, h).id} else s.inserting
  }

  function HandleStep(s: State, h: HandlerId, a: HandlerAction): (s': State)
    requires CanHandle(s, h, a)
    ensures HandlerLocal(s, s', h)
  {
    match a
    case Insert => AfterInsert(s, h)
    case ListSubscribers(order) => AfterList(s, h, order)
    case CommitInsert => AfterCommit(s, h)
    case Ack => AfterAck(s, h)
    case CallProvider(answer) => AfterCall(s, h, answer)
    case Persist => AfterPersist(s, h)
    case PersistError => AfterError(s, h)
    case Die => AfterDeath(s, h)
  }

  // ----- When each step of a handler is possible, and what it does

  lemma InsertIs(s: State, h: HandlerId)
    requires OnEvent(s, h) && s.handlers[h].stage.Fresh? && (BodyOf(s, h).id in s.keys || BodyOf(s, h).id !in s.inserting)
    ensures CanHandle(s, h, Insert) && HandleStep(s, h, Insert) == AfterInsert(s, h)
  {
  }

  lemma ListIs(s: State, h: HandlerId, order: seq<SubscriberId>)
    requires OnEvent(s, h) && s.handlers[h].stage.Inserted?
    requires NoDuplicates(order) && (set x | x in order) == ActiveSubscribers(s.subs)
    ensures CanHandle(s, h, ListSubscribers(order)) && HandleStep(s, h, ListSubscribers(order)) == AfterList(s, h, order)
  {
  }

  lemma CommitIs(s: State, h: HandlerId)
    requires OnEvent(s, h) && s.handlers[h].stage.Staged?
    ensures CanHandle(s, h, CommitInsert) && HandleStep(s, h, CommitInsert) == AfterCommit(s, h)
  {
  }

  lemma AckIs(s: State, h: HandlerId)
    requires Knows(s, h)
    requires var g := s.handlers[h].stage; g.Duplicate? || g.Committed? || (g.Fresh? && !OnEvent(s, h))
    ensures CanHandle(s, h, Ack) && HandleStep(s, h, Ack) == AfterAck(s, h)
  {
  }

  lemma CallIs(s: State, h: HandlerId, answer: Answer)
    requires OnEvent(s, h) && s.handlers[h].stage.Enriching? && s.handlers[h].stage.calls < PROVIDER_TRIES
    ensures CanHandle(s, h, CallProvider(answer)) && HandleStep(s, h, CallProvider(answer)) == AfterCall(s, h, answer)
  {
  }

  lemma PersistIs(s: State, h: HandlerId)
    requires OnEvent(s, h) && s.handlers[h].stage.HasPayload? && BodyOf(s, h).id in s.keys
    ensures CanHandle(s, h, Persist) && HandleStep(s, h, Persist) == AfterPersist(s, h)
  {
  }

  lemma PersistErrorIs(s: State, h: HandlerId)
    requires OnEvent(s, h) && s.handlers[h].stage.HasFatal? && BodyOf(s, h).id in s.keys
    ensures CanHandle(s, h, PersistError) && HandleStep(s, h, PersistError) == AfterError(s, h)
  {
  }

  lemma DieIs(s: State, h: HandlerId)
    requires Knows(s, h)
    ensures CanHandle(s, h, Die) && HandleStep(s, h, Die) == AfterDeath(s, h)
  {
  }

  // ----- What reconcilers can do

  predicate IsStale(c: Config, k: Key, readAt: int) {
    k.status.Received? && k.receivedAt < readAt - c.staleAfter
  }

  predicate CanLoad(c: Config, s: State, ids: seq<MessageId>, readAt: int) {
    && readAt <= s.clock && |ids| <= c.batchSize && NoDuplicates(ids)
    && forall i :: 0 <= i < |ids| ==> ids[i] in s.keys && IsStale(c, s.keys[ids[i]], readAt)
  }

  predicate AtRow(s: State, q: ReconcilerId) {
    && q in s.cycles && s.cycles[q].pos < |s.cycles[q].batch|
    && var id := s.cycles[q].batch[s.cycles[q].pos];
       id in s.keys && id in s.cycles[q].counts
  }

  function RowAt(s: State, q: ReconcilerId): MessageId
    requires AtRow(s, q)
  {
    s.cycles[q].batch[s.cycles[q].pos]
  }

  predicate CanReconcile(c: Config, s: State, q: ReconcilerId, a: CycleAction) {
    match a
    case GiveUp => AtRow(s, q) && s.cycles[q].counts[RowAt(s, q)] >= c.maxReconciles
    case Publish(result, reached) =>
      AtRow(s, q) && s.cycles[q].counts[RowAt(s, q)] < c.maxReconciles && (result.Sent? ==> reached)
    case CommitCycle => q in s.cycles && s.cycles[q].pos == |s.cycles[q].batch|
    case EndCycle => q in s.cycles
  }

  function AfterGiveUp(s: State, q: ReconcilerId): State
    requires AtRow(s, q)
  {
    var y := s.cycles[q];
    s.(cycles := s.cycles[q := y.(pos := y.pos + 1, staged := y.staged[RowAt(s, q) := Abandon(y.counts[RowAt(s, q)])])])
  }

  /** The call is issued; whether the broker got the message is known only if the call returns normally. A time-out
      leaves the count alone, any other exception ends the cycle without a commit. */
  function AfterPublish(s: State, q: ReconcilerId, result: PublishResult, reached: bool): State
    requires AtRow(s, q)
  {
    s.(issued := Plus(s.issued, RowAt(s, q)),
       bodies := s.bodies + When(reached, [BodyFor(s, RowAt(s, q))]),
       queue := s.queue + NewTag(s, reached),
       requeued := s.requeued + NewTag(s, reached),
       cycles := CyclesAfter(s, q, result))
  }

  function When<T>(b: bool, xs: seq<T>): seq<T> { if b then xs else [] }
  function NewTag(s: State, b: bool): set<Tag> { if b then {|s.bodies|} else {} }

  function BodyFor(s: State, id: MessageId): Body
    requires id in s.keys
  {
    Event(id, s.keys[id].kind, s.keys[id].raw)
  }

  function CyclesAfter(s: State, q: ReconcilerId, result: PublishResult): map<ReconcilerId, Cycle>
    requires AtRow(s, q)
  {
    var y := s.cycles[q];
    var id := RowAt(s, q);
    match result
    case Sent => s.cycles[q := y.(pos := y.pos + 1, staged := y.staged[id := Bump(y.counts[id] + 1)])]
    case TimedOut => s.cycles[q := y.(pos := y.pos + 1)]
    case Raised => s.cycles - {q}
  }

  function ReconcileStep(c: Config, s: State, q: ReconcilerId, a: CycleAction): State
    requires CanReconcile(c, s, q, a)
  {
    match a
    case GiveUp => AfterGiveUp(s, q)
    case Publish(result, reached) => AfterPublish(s, q, result, reached)
    case CommitCycle => s.(keys := Flush(s.keys, s.cycles[q].staged), cycles := s.cycles - {q})
    case EndCycle => s.(cycles := s.cycles - {q})
  }

  // ----- When each step of a reconciler is possible, and what it does

  lemma GiveUpIs(c: Config, s: State, q: ReconcilerId)
    requires AtRow(s, q) && s.cycles[q].counts[RowAt(s, q)] >= c.maxReconciles
    ensures CanReconcile(c, s, q, GiveUp) && ReconcileStep(c, s, q, GiveUp) == AfterGiveUp(s, q)
  {
  }

  lemma PublishIs(c: Config, s: State, q: ReconcilerId, result: PublishResult, reached: bool)
    requires AtRow(s, q) && s.cycles[q].counts[RowAt(s, q)] < c.maxReconciles && (result.Sent? ==> reached)
    ensures CanReconcile(c, s, q, Publish(result, reached))
    ensures ReconcileStep(c, s, q, Publish(result, reached)) == AfterPublish(s, q, result, reached)
  {
  }

  lemma CommitCycleIs(c: Config, s: State, q: ReconcilerId)
    requires q in s.cycles && s.cycles[q].pos == |s.cycles[q].batch|
    ensures CanReconcile(c, s, q, CommitCycle)
    ensures ReconcileStep(c, s, q, CommitCycle) == s.(keys := Flush(s.keys, s.cycles[q].staged), cycles := s.cycles - {q})
  {
  }

  // ----- Everything else

  predicate CanHappen(c: Config, s: State, e: Event)
    requires !e.Handle? && !e.Reconcile?
  {
    match e
    case Tick(_) => true
    case ChangeSubscriber(change) => CanChange(s.subs, change)
    case PublishBody(_) => true
    case Deliver(h, tag) => h !in s.handlers && tag in s.queue
    case LoadStale(q, ids, readAt) => q !in s.cycles && CanLoad(c, s, ids, readAt)
  }

  function CountsOf(keys: map<MessageId, Key>, ids: seq<MessageId>): map<MessageId, nat> {
    map id | id in keys && id in ids :: keys[id].reconcileCount
  }

  function Happen(c: Config, s: State, e: Event): State
    requires !e.Handle? && !e.Reconcile? && CanHappen(c, s, e)
  {
    match e
    case Tick(d) => s.(clock := s.clock + d)
    case ChangeSubscriber(change) => s.(subs := Change(s.subs, change))
    case PublishBody(body) => s.(bodies := s.bodies + [body], queue := s.queue + {|s.bodies|})
    case Deliver(h, tag) => s.(handlers := s.handlers[h := Handler(tag, Fresh)], queue := s.queue - {tag})
    case LoadStale(q, ids, _) => s.(cycles := s.cycles[q := Cycle(ids, CountsOf(s.keys, ids), 0, map[])])
  }

  predicate Enabled(c: Config, s: State, e: Event) {
    match e
    case Handle(h, a) => CanHandle(s, h, a)
    case Reconcile(q, a) => CanReconcile(c, s, q, a)
    case _ => CanHappen(c, s, e)
  }

  function Apply(c: Config, s: State, e: Event): State
    requires Enabled(c, s, e)
  {
    match e
    case Handle(h, a) => HandleStep(s, h, a)
    case Reconcile(q, a) => ReconcileStep(c, s, q, a)
    case _ => Happen(c, s, e)
  }

  // ----- Runs

  predicate IsRun(c: Config, s: State, es: seq<Event>)
    decreases |es|
  {
    es == [] || (Enabled(c, s, es[0]) && IsRun(c, Apply(c, s, es[0]), es[1..]))
  }

  function After(c: Config, s: State, es: seq<Event>): State
    requires IsRun(c, s, es)
    decreases |es|
  {
    if es == [] then s else After(c, Apply(c, s, es[0]), es[1..])
  }

  lemma {:induction false} RunsCompose(c: Config, s: State, es: seq<Event>, fs: seq<Event>)
    requires IsRun(c, s, es) && IsRun(c, After(c, s, es), fs)
    ensures IsRun(c, s, es + fs)
    ensures After(c, s, es + fs) == After(c, After(c, s, es), fs)
    decreases |es|
  {
    hide Enabled, Apply;
    if es == [] {
      assert es + fs == fs;
    } else {
      assert (es + fs)[1..] == es[1..] + fs;
      RunsCompose(c, Apply(c, s, es[0]), es[1..], fs);
    }
  }

  lemma RunPrepends(c: Config, s: State, e: Event, es: seq<Event>)
    requires Enabled(c, s, e) && IsRun(c, Apply(c, s, e), es)
    ensures IsRun(c, s, [e] + es) && After(c, s, [e] + es) == After(c, Apply(c, s, e), es)
  {
    hide Enabled, Apply;
    assert ([e] + es)[1..] == es;
  }

  lemma RunOfOne(c: Config, s: State, e: Event)
    requires Enabled(c, s, e)
    ensures IsRun(c, s, [e]) && After(c, s, [e]) == Apply(c, s, e)
  {
    hide Enabled, Apply;
    assert [e][1..] == [];
  }
}
