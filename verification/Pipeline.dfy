/** Ingestion and delivery together: the consumer's commit makes the rows that workers deliver, and what a worker
    sends is what the idempotency_keys row holds when its claim loads it. */
module Pipeline {
  import opened Types
  import I = Ingest
  import IS = IngestSafety
  import IT = IngestTheorems
  import IH = IngestHistory
  import D = Delivery
  import DS = DeliverySafety

  datatype State = State(ing: I.State, del: D.State)
  datatype Config = Config(ing: I.Config, del: D.Config)

  /** `Load` is the claim's read of the payloads; the other shared events are the commit of an insert with its
      attempt rows, a registry change and the passing of time. */
  datatype Event =
    | Ingestion(i: I.Event)
    | Delivery(d: D.Event)
    | CommitInsert(h: I.HandlerId)
    | Load(w: D.WorkerId)
    | ChangeSubscriber(change: SubscriberEvent)
    | Tick(dt: nat)

  predicate OnlyIngestion(e: I.Event) {
    !e.ChangeSubscriber? && !e.Tick? && !(e.Handle? && e.action.CommitInsert?)
  }

  predicate OnlyDelivery(e: D.Event) {
    !e.ChangeSubscriber? && !e.Tick? && !e.Create? && !(e.Work? && e.action.LoadBodies?)
  }

  function RowsOf(id: MessageId, subs: seq<SubscriberId>): set<RowId> {
    set x | x in subs :: RowId(id, x)
  }

  function NewRows(s: State, h: I.HandlerId): set<RowId>
    requires I.OnEvent(s.ing, h) && s.ing.handlers[h].stage.Staged?
  {
    RowsOf(I.BodyOf(s.ing, h).id, s.ing.handlers[h].stage.subs)
  }

  function BodyFor(s: State, id: RowId): Payload
    requires id.message in s.ing.keys
  {
    BodyToSend(s.ing.keys[id.message].raw, s.ing.keys[id.message].enriched)
  }

  function BodiesFor(s: State, todo: seq<D.Snapshot>): (bodies: seq<Payload>)
    requires forall i :: 0 <= i < |todo| ==> todo[i].id.message in s.ing.keys
    ensures |bodies| == |todo| && forall i :: 0 <= i < |todo| ==> bodies[i] == BodyFor(s, todo[i].id)
  {
    if todo == [] then [] else [BodyFor(s, todo[0].id)] + BodiesFor(s, todo[1..])
  }

  ghost predicate CanLoad(s: State, w: D.WorkerId) {
    && D.WorkerOf(s.del, w).Locked?
    && forall i :: 0 <= i < |D.WorkerOf(s.del, w).todo| ==> D.WorkerOf(s.del, w).todo[i].id.message in s.ing.keys
  }

  ghost predicate Enabled(c: Config, s: State, e: Event) {
    match e
    case Ingestion(i) => OnlyIngestion(i) && I.Enabled(c.ing, s.ing, i)
    case Delivery(d) => OnlyDelivery(d) && D.Enabled(c.del, s.del, d)
    case CommitInsert(h) => I.CanHandle(s.ing, h, I.CommitInsert) && NewRows(s, h) !! s.del.rows.Keys
    case Load(w) => CanLoad(s, w)
    case ChangeSubscriber(change) => CanChange(s.ing.subs, change) && CanChange(s.del.subs, change)
    case Tick(_) => true
  }

  ghost function IngestionEvents(e: Event): seq<I.Event> {
    match e
    case Ingestion(i) => [i]
    case Delivery(_) => []
    case CommitInsert(h) => [I.Handle(h, I.CommitInsert)]
    case Load(_) => []
    case ChangeSubscriber(change) => [I.ChangeSubscriber(change)]
    case Tick(dt) => [I.Tick(dt)]
  }

  ghost function DeliveryEvents(s: State, e: Event): seq<D.Event>
    requires e.CommitInsert? ==> I.CanHandle(s.ing, e.h, I.CommitInsert)
    requires e.Load? ==> CanLoad(s, e.w)
  {
    match e
    case Ingestion(_) => []
    case Delivery(d) => [d]
    case CommitInsert(h) => [D.Create(NewRows(s, h))]
    case Load(w) => [D.Work(w, D.LoadBodies(BodiesFor(s, D.WorkerOf(s.del, w).todo)))]
    case ChangeSubscriber(change) => [D.ChangeSubscriber(change)]
    case Tick(dt) => [D.Tick(dt)]
  }

  /** Each event is one step, or none, of either machine. */
  ghost function NextIngestion(c: Config, s: State, e: Event): I.State
    requires Enabled(c, s, e)
  {
    var es := IngestionEvents(e);
    if es == [] then s.ing else I.Apply(c.ing, s.ing, es[0])
  }

  ghost function NextDelivery(c: Config, s: State, e: Event): D.State
    requires Enabled(c, s, e)
  {
    var es := DeliveryEvents(s, e);
    if es == [] then s.del else D.Apply(c.del, s.del, es[0])
  }

  ghost function Apply(c: Config, s: State, e: Event): State
    requires Enabled(c, s, e)
  {
    State(NextIngestion(c, s, e), NextDelivery(c, s, e))
  }

  ghost predicate Initial(s: State) { I.Initial(s.ing) && D.Initial(s.del) }

  ghost predicate IsRun(c: Config, s: State, es: seq<Event>)
    decreases |es|
  {
    es == [] || (Enabled(c, s, es[0]) && IsRun(c, Apply(c, s, es[0]), es[1..]))
  }

  ghost function After(c: Config, s: State, es: seq<Event>): State
    requires IsRun(c, s, es)
    decreases |es|
  {
    if es == [] then s else After(c, Apply(c, s, es[0]), es[1..])
  }

  // ----- The invariant

  /** The delivery rows are exactly the attempts ingested. */
  ghost predicate SameRows(s: State) {
    && (forall id :: id in s.del.rows ==>
      id.message in s.ing.keys && id.message in s.ing.attempts && id.subscriber in s.ing.attempts[id.message])
    && (forall m, x :: m in s.ing.attempts && x in s.ing.attempts[m] ==> RowId(m, x) in s.del.rows)
  }

  /** A payload loaded for a row is its message's raw payload, or the stored enriched one. */
  ghost predicate LoadOk(s: State, l: D.Load) {
    && l.id in s.del.rows && l.id.message in s.ing.keys
    && var k := s.ing.keys[l.id.message];
       l.body == k.raw || k.enriched == Some(l.body)
  }

  ghost predicate Loads(s: State) {
    forall i :: 0 <= i < |s.del.loads| ==> LoadOk(s, s.del.loads[i])
  }

  /** Of two loads for one message, the later repeats the earlier unless the earlier was the raw payload. */
  ghost predicate InOrder(s: State, l: D.Load, m: D.Load) {
    l.id.message == m.id.message && l.id.message in s.ing.keys ==> l.body == s.ing.keys[l.id.message].raw || m.body == l.body
  }

  ghost predicate Ordered(s: State) {
    forall i, j :: 0 <= i < j < |s.del.loads| ==> InOrder(s, s.del.loads[i], s.del.loads[j])
  }

  /** A worker's snapshots point at the loads made for their rows. */
  ghost predicate NumberedOk(s: D.State, wk: D.Worker) {
    wk.Loaded? || wk.Delivering? ==>
      forall i :: 0 <= i < |wk.todo| ==> wk.todo[i].load < |s.loads| && s.loads[wk.todo[i].load].id == wk.todo[i].id
  }

  ghost predicate Numbers(s: D.State) {
    && (forall w :: w in s.workers ==> NumberedOk(s, s.workers[w]))
    && (forall i :: 0 <= i < |s.sent| ==> s.sent[i] < |s.loads|)
  }

  ghost predicate Linked(c: Config, s: State) {
    && c.del.maxAttempts >= 1
    && IS.Safe(c.ing, s.ing) && DS.Safe(c.del, s.del)
    && s.ing.subs == s.del.subs
    && SameRows(s) && Loads(s) && Ordered(s) && Numbers(s.del)
  }

  // ----- Preservation

  /** What an ingestion event that is not a commit does to the shared tables: at most, it stores a payload where
      there was none. */
  ghost predicate KeysAdvance(s: I.State, s': I.State) {
    && s'.keys.Keys == s.keys.Keys && s'.attempts == s.attempts
    && forall id :: id in s.keys ==>
         s'.keys[id].raw == s.keys[id].raw && (s'.keys[id].enriched == s.keys[id].enriched || s.keys[id].enriched.None?)
  }

  lemma IngestionAdvancesKeys(c: I.Config, s: I.State, e: I.Event)
    requires IS.Safe(c, s) && I.Enabled(c, s, e) && OnlyIngestion(e)
    ensures KeysAdvance(s, I.Apply(c, s, e)) && I.Apply(c, s, e).subs == s.subs
  {
    hide I.HandleStep, I.CanHandle, I.ReconcileStep, I.CanReconcile, IS.Safe;
    var s' := I.Apply(c, s, e);
    match e
    case Handle(h, a) =>
      IT.RawStays(s, h, a);
      forall id | id in s.keys && s.keys[id].enriched.Some? ensures s'.keys[id].enriched == s.keys[id].enriched {
        IT.PayloadKept(c, s, h, a, id);
      }
    case Reconcile(q, a) =>
      IS.ReconcilingIsQuiet(c, s, q, a);
      ReconcilersKeepSubscribers(c, s, q, a);
    case _ =>
  }

  lemma ReconcilersKeepSubscribers(c: I.Config, s: I.State, q: I.ReconcilerId, a: I.CycleAction)
    requires I.CanReconcile(c, s, q, a)
    ensures I.ReconcileStep(c, s, q, a).subs == s.subs
  {
  }

  lemma LoadsSurvive(s: State, s': State)
    requires Loads(s) && Ordered(s) && KeysAdvance(s.ing, s'.ing) && s'.del.loads == s.del.loads
    requires s.del.rows.Keys <= s'.del.rows.Keys
    ensures Loads(s') && Ordered(s')
  {
    forall i | 0 <= i < |s'.del.loads| ensures LoadOk(s', s'.del.loads[i]) { assert LoadOk(s, s.del.loads[i]); }
    forall i, j | 0 <= i < j < |s'.del.loads| ensures InOrder(s', s'.del.loads[i], s'.del.loads[j]) {
      assert InOrder(s, s.del.loads[i], s.del.loads[j]);
    }
  }

  lemma LinkedIngestion(c: Config, s: State, i: I.Event)
    requires Linked(c, s) && OnlyIngestion(i) && I.Enabled(c.ing, s.ing, i)
    ensures Linked(c, Apply(c, s, Ingestion(i)))
  {
    hide I.Enabled, I.Apply, IS.Safe, DS.Safe, Loads, Ordered, Numbers;
    var s' := Apply(c, s, Ingestion(i));
    IS.SafeStep(c.ing, s.ing, i);
    IngestionAdvancesKeys(c.ing, s.ing, i);
    LoadsSurvive(s, s');
  }

  /** What a delivery event that neither creates rows nor loads payloads leaves alone. */
  ghost predicate LoadsStay(s: D.State, s': D.State) {
    s'.rows.Keys == s.rows.Keys && s'.subs == s.subs && s'.loads == s.loads
  }

  lemma DeliveryKeepsLoads(c: D.Config, s: D.State, e: D.Event)
    requires DS.Safe(c, s) && D.Enabled(c, s, e) && OnlyDelivery(e)
    ensures LoadsStay(s, D.Apply(c, s, e))
  {
    hide D.CanAct, D.Act, DS.Safe;
    if e.Work? { WorkersKeepLoads(c, s, e.w, e.action); } else { HappeningsKeepLoads(c, s, e); }
  }

  lemma WorkersKeepLoads(c: D.Config, s: D.State, w: D.WorkerId, a: D.Action)
    requires D.CanAct(c, s, w, a) && !a.LoadBodies?
    ensures D.Act(c, s, w, a).loads == s.loads
  {
    hide D.Grows, D.HistoryOf, D.SettledRow;
  }

  lemma HappeningsKeepLoads(c: D.Config, s: D.State, e: D.Event)
    requires OnlyDelivery(e) && !e.Work? && D.CanHappen(s, e)
    ensures LoadsStay(s, D.Happen(c, s, e))
    ensures D.Happen(c, s, e).workers == s.workers && D.Happen(c, s, e).sent == s.sent
  {
  }

  lemma NumbersActed(c: D.Config, s: D.State, w: D.WorkerId, a: D.Action)
    requires D.CanAct(c, s, w, a) && !a.LoadBodies?
    requires w in s.workers ==> NumberedOk(s, s.workers[w])
    ensures NumberedOk(D.Act(c, s, w, a), D.Act(c, s, w, a).workers[w])
    ensures D.Act(c, s, w, a).sent == s.sent
      || (D.Busy(s, w) && D.Act(c, s, w, a).sent == s.sent + [D.Head(s, w).load])
  {
    hide D.Grows, D.HistoryOf, D.SettledRow, D.ClaimRows, D.CanSelect;
  }

  lemma NumbersKept(c: D.Config, s: D.State, e: D.Event)
    requires D.Enabled(c, s, e) && OnlyDelivery(e) && Numbers(s) && LoadsStay(s, D.Apply(c, s, e))
    ensures Numbers(D.Apply(c, s, e))
  {
    hide D.CanAct, D.Act;
    var s' := D.Apply(c, s, e);
    if e.Work? { NumbersActed(c, s, e.w, e.action); } else { HappeningsKeepLoads(c, s, e); }
    forall w | w in s'.workers ensures NumberedOk(s', s'.workers[w]) {
      assert w in s.workers ==> NumberedOk(s, s.workers[w]);
    }
  }

  lemma LinkedDelivery(c: Config, s: State, d: D.Event)
    requires Linked(c, s) && OnlyDelivery(d) && D.Enabled(c.del, s.del, d)
    ensures Linked(c, Apply(c, s, Delivery(d)))
  {
    hide D.Enabled, D.Apply, IS.Safe, DS.Safe, Loads, Ordered, Numbers;
    var s' := Apply(c, s, Delivery(d));
    DS.SafeStep(c.del, s.del, d);
    DeliveryKeepsLoads(c.del, s.del, d);
    NumbersKept(c.del, s.del, d);
    LoadsSurvive(s, s');
  }

  lemma NewRowsAreNew(c: Config, s: State, h: I.HandlerId)
    requires Linked(c, s) && I.CanHandle(s.ing, h, I.CommitInsert)
    ensures I.OnEvent(s.ing, h) && s.ing.handlers[h].stage.Staged?
    ensures Enabled(c, s, CommitInsert(h)) && NewRows(s, h) !! s.del.rows.Keys
    ensures I.BodyOf(s.ing, h).id !in s.ing.keys && I.BodyOf(s.ing, h).id !in s.ing.attempts
  {
    assert IS.HandlerOk(s.ing, h);
  }

  lemma CommitEffect(c: I.Config, s: I.State, h: I.HandlerId)
    requires I.CanHandle(s, h, I.CommitInsert) && I.BodyOf(s, h).id !in s.attempts
    ensures var s', b := I.HandleStep(s, h, I.CommitInsert), I.BodyOf(s, h);
      && s'.keys.Keys == s.keys.Keys + {b.id} && s'.subs == s.subs
      && s'.attempts == s.attempts[b.id := s.handlers[h].stage.subs]
      && forall id :: id in s.keys && id != b.id ==> s'.keys[id] == s.keys[id]
  {
    assert [] + s.handlers[h].stage.subs == s.handlers[h].stage.subs;
  }

  lemma LoadsSurviveCommit(s: State, s': State)
    requires Loads(s) && Ordered(s) && s'.del.loads == s.del.loads && s.del.rows.Keys <= s'.del.rows.Keys
    requires forall id :: id in s.ing.keys ==> id in s'.ing.keys && s'.ing.keys[id] == s.ing.keys[id]
    ensures Loads(s') && Ordered(s')
  {
    forall i | 0 <= i < |s'.del.loads| ensures LoadOk(s', s'.del.loads[i]) { assert LoadOk(s, s.del.loads[i]); }
    forall i, j | 0 <= i < j < |s'.del.loads| ensures InOrder(s', s'.del.loads[i], s'.del.loads[j]) {
      assert LoadOk(s, s.del.loads[i]) && InOrder(s, s.del.loads[i], s.del.loads[j]);
    }
  }

  lemma RowsOfCommit(s: State, s': State, id: MessageId, subs: seq<SubscriberId>)
    requires SameRows(s) && id !in s.ing.attempts
    requires s'.ing.keys.Keys == s.ing.keys.Keys + {id} && s'.ing.attempts == s.ing.attempts[id := subs]
    requires s'.del.rows.Keys == s.del.rows.Keys + RowsOf(id, subs)
    ensures SameRows(s')
  {
  }

  lemma LinkedCommit(c: Config, s: State, h: I.HandlerId)
    requires Linked(c, s) && Enabled(c, s, CommitInsert(h))
    ensures Linked(c, Apply(c, s, CommitInsert(h)))
  {
    hide I.HandleStep, I.CanHandle, IS.Safe, DS.Safe, Numbers, Loads, Ordered, SameRows;
    var s' := Apply(c, s, CommitInsert(h));
    NewRowsAreNew(c, s, h);
    CommitEffect(c.ing, s.ing, h);
    IS.SafeStep(c.ing, s.ing, I.Handle(h, I.CommitInsert));
    DS.SafeStep(c.del, s.del, D.Create(NewRows(s, h)));
    CreatingKeepsNumbers(c.del, s.del, NewRows(s, h));
    LoadsSurviveCommit(s, s');
    RowsOfCommit(s, s', I.BodyOf(s.ing, h).id, s.ing.handlers[h].stage.subs);
  }

  lemma CreatingKeepsNumbers(c: D.Config, s: D.State, ids: set<RowId>)
    requires ids !! s.rows.Keys && Numbers(s)
    ensures Numbers(D.Apply(c, s, D.Create(ids))) && D.Apply(c, s, D.Create(ids)).subs == s.subs
    ensures D.Apply(c, s, D.Create(ids)).loads == s.loads
  {
    var s' := D.Apply(c, s, D.Create(ids));
    forall w | w in s'.workers ensures NumberedOk(s', s'.workers[w]) { assert NumberedOk(s, s.workers[w]); }
  }

  lemma LockedRowsHaveKeys(c: Config, s: State, w: D.WorkerId)
    requires Linked(c, s) && D.WorkerOf(s.del, w).Locked?
    ensures CanLoad(s, w)
  {
    hide Loads, Ordered, Numbers, IS.Safe;
    var wk := s.del.workers[w];
    assert DS.WorkerOk(c.del, s.del, w, wk);
    forall i | 0 <= i < |wk.todo| ensures wk.todo[i].id.message in s.ing.keys {
      assert DS.SnapshotOk(c.del, s.del, wk.todo[i]);
    }
  }

  lemma NumbersLoaded(s: D.State, w: D.WorkerId, bodies: seq<Payload>)
    requires D.WorkerOf(s, w).Locked? && |bodies| == |D.WorkerOf(s, w).todo| && Numbers(s)
    ensures Numbers(D.AfterLoad(s, w, bodies))
  {
    hide D.Grows, D.Local;
    var s' := D.AfterLoad(s, w, bodies);
    assert forall v :: v in s'.workers && v != w ==> v in s.workers && s'.workers[v] == s.workers[v];
    forall v | v in s'.workers ensures NumberedOk(s', s'.workers[v]) {
      assert v != w ==> NumberedOk(s, s.workers[v]);
    }
  }

  lemma LoadEffect(c: D.Config, s: D.State, w: D.WorkerId, bodies: seq<Payload>)
    requires D.WorkerOf(s, w).Locked? && |bodies| == |D.WorkerOf(s, w).todo| && Numbers(s)
    ensures D.CanAct(c, s, w, D.LoadBodies(bodies))
    ensures var s' := D.Act(c, s, w, D.LoadBodies(bodies));
      && s'.loads == s.loads + D.LoadsFor(D.WorkerOf(s, w).todo, bodies)
      && s'.rows == s.rows && s'.subs == s.subs && Numbers(s')
  {
    hide D.CanAct, D.Act, D.Grows, Numbers;
    D.LoadBodiesIs(c, s, w, bodies);
    NumbersLoaded(s, w, bodies);
  }

  lemma LinkedLoad(c: Config, s: State, w: D.WorkerId)
    requires Linked(c, s) && CanLoad(s, w)
    ensures Linked(c, Apply(c, s, Load(w)))
  {
    hide D.CanAct, D.Act, IS.Safe, DS.Safe, Numbers;
    var s' := Apply(c, s, Load(w));
    var todo := D.WorkerOf(s.del, w).todo;
    var bodies := BodiesFor(s, todo);
    LoadEffect(c.del, s.del, w, bodies);
    DS.SafeStep(c.del, s.del, D.Work(w, D.LoadBodies(bodies)));
    LockedRowsExist(c, s, w);
    var n := |s.del.loads|;
    forall i | 0 <= i < |s'.del.loads|
      ensures LoadOk(s', s'.del.loads[i])
      ensures i >= n ==> s'.del.loads[i].body == BodyFor(s, s'.del.loads[i].id)
    {
      if i < n { assert LoadOk(s, s.del.loads[i]); }
    }
    forall i, j | 0 <= i < j < |s'.del.loads| ensures InOrder(s', s'.del.loads[i], s'.del.loads[j]) {
      if j < n {
        assert InOrder(s, s.del.loads[i], s.del.loads[j]);
      } else {
        assert LoadOk(s', s'.del.loads[i]);
        if s'.del.loads[i].id.message == s'.del.loads[j].id.message {
          StoredPayloadIsSent(c, s, s'.del.loads[j].id);
        }
      }
    }
  }

  lemma LockedRowsExist(c: Config, s: State, w: D.WorkerId)
    requires Linked(c, s) && CanLoad(s, w)
    ensures forall i :: 0 <= i < |D.WorkerOf(s.del, w).todo| ==> D.WorkerOf(s.del, w).todo[i].id in s.del.rows
  {
    hide Loads, Ordered, Numbers, IS.Safe;
    var wk := s.del.workers[w];
    assert DS.WorkerOk(c.del, s.del, w, wk);
    forall i | 0 <= i < |wk.todo| ensures wk.todo[i].id in s.del.rows {
      assert DS.SnapshotOk(c.del, s.del, wk.todo[i]);
    }
  }

  /** A stored payload is never empty, so it is what is sent. */
  lemma StoredPayloadIsSent(c: Config, s: State, id: RowId)
    requires IS.Safe(c.ing, s.ing) && id.message in s.ing.keys
    ensures s.ing.keys[id.message].enriched.Some? ==> BodyFor(s, id) == s.ing.keys[id.message].enriched.value
    ensures s.ing.keys[id.message].enriched.None? ==> BodyFor(s, id) == s.ing.keys[id.message].raw
    ensures s.ing.keys[id.message].enriched.Some? ==>
      IS.EnrichedFrom(s.ing.keys[id.message].enriched.value, s.ing.keys[id.message].raw)
  {
    assert IS.KeyOk(c.ing, s.ing, id.message);
  }

  lemma LinkedRest(c: Config, s: State, e: Event)
    requires Linked(c, s) && Enabled(c, s, e) && (e.ChangeSubscriber? || e.Tick?)
    ensures Linked(c, Apply(c, s, e))
  {
    hide IS.Safe, DS.Safe;
    var s' := Apply(c, s, e);
    IS.SafeStep(c.ing, s.ing, IngestionEvents(e)[0]);
    DS.SafeStep(c.del, s.del, DeliveryEvents(s, e)[0]);
    LoadsSurvive(s, s');
    forall w | w in s'.del.workers ensures NumberedOk(s'.del, s'.del.workers[w]) { assert NumberedOk(s.del, s.del.workers[w]); }
  }

  lemma LinkedStep(c: Config, s: State, e: Event)
    requires Linked(c, s) && Enabled(c, s, e)
    ensures Linked(c, Apply(c, s, e))
  {
    hide Linked, Apply, I.Enabled, D.Enabled, I.CanHandle, CanLoad;
    match e
    case Ingestion(i) => LinkedIngestion(c, s, i);
    case Delivery(d) => LinkedDelivery(c, s, d);
    case CommitInsert(h) => LinkedCommit(c, s, h);
    case Load(w) => LinkedLoad(c, s, w);
    case _ => LinkedRest(c, s, e);
  }

  lemma {:induction false} LinkedRun(c: Config, s: State, es: seq<Event>)
    requires Linked(c, s) && IsRun(c, s, es)
    ensures Linked(c, After(c, s, es))
    decreases |es|
  {
    hide Linked, Apply, Enabled;
    if es != [] {
      LinkedStep(c, s, es[0]);
      LinkedRun(c, Apply(c, s, es[0]), es[1..]);
    }
  }

  lemma LinkedInitially(c: Config, s: State)
    requires c.del.maxAttempts >= 1 && Initial(s)
    ensures Linked(c, s)
  {
    IS.SafeInitially(c.ing, s.ing);
    DS.SafeInitially(c.del, s.del);
  }

  ghost predicate Reached(c: Config, s0: State, es: seq<Event>) {
    c.del.maxAttempts >= 1 && Initial(s0) && IsRun(c, s0, es)
  }

  lemma ReachedIsLinked(c: Config, s0: State, es: seq<Event>)
    requires Reached(c, s0, es)
    ensures Linked(c, After(c, s0, es))
  {
    LinkedInitially(c, s0);
    LinkedRun(c, s0, es);
  }

  // ----- The theorems

  /** No reachable commit of an insert is refused: its rows are new, so the unique constraint on
      (message_id, subscriber_id) is never violated. */
  lemma CommitNeverConflicts(c: Config, s0: State, es: seq<Event>, h: I.HandlerId)
    requires Reached(c, s0, es) && I.CanHandle(After(c, s0, es).ing, h, I.CommitInsert)
    ensures Enabled(c, After(c, s0, es), CommitInsert(h))
  {
    ReachedIsLinked(c, s0, es);
    NewRowsAreNew(c, After(c, s0, es), h);
  }

  /** A claim can always load the payloads of the rows it has locked. */
  lemma LoadIsPossible(c: Config, s0: State, es: seq<Event>, w: D.WorkerId)
    requires Reached(c, s0, es) && D.WorkerOf(After(c, s0, es).del, w).Locked?
    ensures Enabled(c, After(c, s0, es), Load(w))
  {
    ReachedIsLinked(c, s0, es);
    LockedRowsHaveKeys(c, After(c, s0, es), w);
  }

  /** The delivery rows are exactly one per ingested message and subscriber active at its insert. */
  lemma RowsAreTheAttempts(c: Config, s0: State, es: seq<Event>, id: RowId)
    requires Reached(c, s0, es)
    ensures var s := After(c, s0, es);
      id in s.del.rows <==>
        id.message in s.ing.keys && id.message in s.ing.activeAt && id.subscriber in s.ing.activeAt[id.message]
  {
    ReachedIsLinked(c, s0, es);
    var s := After(c, s0, es);
    if id.message in s.ing.keys {
      assert IS.KeyOk(c.ing, s.ing, id.message);
      assert id.subscriber in s.ing.attempts[id.message] <==> id.subscriber in s.ing.activeAt[id.message];
      assert id == RowId(id.message, id.subscriber);
    }
  }

  // ----- Whose rows are made

  lemma {:induction false} ListedRun(c: Config, s: State, es: seq<Event>, h: I.HandlerId, id: MessageId, subs: seq<SubscriberId>)
    requires Linked(c, s) && IsRun(c, s, es) && IH.Listed(s.ing, h, id, subs)
    requires Ingestion(I.Handle(h, I.Die)) !in es
    ensures Linked(c, After(c, s, es)) && IH.Listed(After(c, s, es).ing, h, id, subs)
    decreases |es|
  {
    hide I.Enabled, I.Apply, D.Enabled, D.Apply, IS.Safe, DS.Safe, IH.Listed, I.CanHandle, NewRows, DeliveryEvents, NextDelivery;
    if es != [] {
      ListedEvent(c, s, es[0], h, id, subs);
      LinkedStep(c, s, es[0]);
      ListedRun(c, Apply(c, s, es[0]), es[1..], h, id, subs);
    }
  }

  lemma ListedEvent(c: Config, s: State, e: Event, h: I.HandlerId, id: MessageId, subs: seq<SubscriberId>)
    requires Linked(c, s) && Enabled(c, s, e) && IH.Listed(s.ing, h, id, subs) && e != Ingestion(I.Handle(h, I.Die))
    ensures IH.Listed(Apply(c, s, e).ing, h, id, subs)
  {
    hide I.Apply, D.Enabled, D.Apply, IS.Safe, DS.Safe, IH.Listed, I.CanHandle, SameRows, Loads, Ordered, Numbers;
    var ies := IngestionEvents(e);
    if ies != [] {
      assert ies[0] != I.Handle(h, I.Die);
      IH.ListedStep(c.ing, s.ing, ies[0], h, id, subs);
    }
  }

  /** The delivery rows of a message are for the subscribers that were active and not deleted when its handler listed
      them, and for no one else: if the handler lives to commit, these are the rows for ever. */
  lemma RowsAreForTheActive(c: Config, s0: State, es: seq<Event>, h: I.HandlerId, order: seq<SubscriberId>, fs: seq<Event>, x: SubscriberId)
    requires Reached(c, s0, es) && Enabled(c, After(c, s0, es), Ingestion(I.Handle(h, I.ListSubscribers(order))))
    requires IsRun(c, Apply(c, After(c, s0, es), Ingestion(I.Handle(h, I.ListSubscribers(order)))), fs)
    requires Ingestion(I.Handle(h, I.Die)) !in fs
    ensures var s := After(c, s0, es);
      var t := After(c, Apply(c, s, Ingestion(I.Handle(h, I.ListSubscribers(order)))), fs);
      && h in s.ing.handlers && s.ing.handlers[h].tag < |s.ing.bodies| && s.ing.bodies[s.ing.handlers[h].tag].Event?
      && var id := s.ing.bodies[s.ing.handlers[h].tag].id;
         id in t.ing.keys ==>
           (RowId(id, x) in t.del.rows <==> x in s.ing.subs && s.ing.subs[x].active && !s.ing.subs[x].deleted)
  {
    hide IsRun, After, I.CanHandle, I.HandleStep, IH.Listed, IS.Safe, DS.Safe;
    ReachedIsLinked(c, s0, es);
    var s, e := After(c, s0, es), Ingestion(I.Handle(h, I.ListSubscribers(order)));
    IH.ListingIsListed(c.ing, s.ing, h, order);
    LinkedStep(c, s, e);
    var id := s.ing.bodies[s.ing.handlers[h].tag].id;
    ListedRun(c, Apply(c, s, e), fs, h, id, order);
    var t := After(c, Apply(c, s, e), fs);
    if id in t.ing.keys { IH.NotBothStagedAndStored(c.ing, t.ing, h, id, order); }
  }

  /** The rows a commit makes: pending, no attempt made, due at once; the others stay as they are. */
  lemma NewRowsArePending(c: Config, s: State, h: I.HandlerId)
    requires Enabled(c, s, CommitInsert(h))
    ensures var t := Apply(c, s, CommitInsert(h));
      && (forall id :: id in s.del.rows ==> id in t.del.rows && t.del.rows[id] == s.del.rows[id])
      && (forall id :: id in t.del.rows && id !in s.del.rows ==>
            t.del.rows[id] == D.Row(D.Pending, 0, s.del.clock, s.del.clock, None, None))
  {
    hide I.HandleStep, I.CanHandle;
  }

  // ----- What is sent

  lemma LoadsInOrder(c: D.Config, s: D.State, w: D.WorkerId, bodies: seq<Payload>)
    requires D.WorkerOf(s, w).Locked? && |bodies| == |D.WorkerOf(s, w).todo|
    ensures D.CanAct(c, s, w, D.LoadBodies(bodies))
    ensures var s', todo := D.Act(c, s, w, D.LoadBodies(bodies)), D.WorkerOf(s, w).todo;
      && |s'.loads| == |s.loads| + |todo| && s.loads <= s'.loads
      && D.WorkerOf(s', w).Loaded? && |D.WorkerOf(s', w).todo| == |todo|
      && forall i :: 0 <= i < |todo| ==>
           && D.WorkerOf(s', w).todo[i].id == todo[i].id && D.WorkerOf(s', w).todo[i].load == |s.loads| + i
           && s'.loads[|s.loads| + i] == D.Load(todo[i].id, bodies[i])
  {
    hide D.Grows;
  }

  /** The i-th row of w's batch has been loaded with the stored enriched payload if there is one, and else the raw one. */
  ghost predicate TookWhatIsStored(s: State, t: State, w: D.WorkerId, x: D.Snapshot, i: nat) {
    && x.id.message in s.ing.keys
    && D.WorkerOf(t.del, w).Loaded? && i < |D.WorkerOf(t.del, w).todo|
    && var y := D.WorkerOf(t.del, w).todo[i];
       && y.id == x.id && y.load < |t.del.loads| && t.del.loads[y.load].id == x.id
       && t.del.loads[y.load].body ==
            (match s.ing.keys[x.id.message].enriched
             case Some(payload) => payload
             case None => s.ing.keys[x.id.message].raw)
  }

  lemma LoadTakes(c: Config, s: State, w: D.WorkerId, i: nat)
    requires IS.Safe(c.ing, s.ing) && CanLoad(s, w) && i < |D.WorkerOf(s.del, w).todo|
    ensures TookWhatIsStored(s, Apply(c, s, Load(w)), w, D.WorkerOf(s.del, w).todo[i], i)
  {
    hide D.CanAct, D.Act, IS.Safe;
    var todo := D.WorkerOf(s.del, w).todo;
    LoadsInOrder(c.del, s.del, w, BodiesFor(s, todo));
    StoredPayloadIsSent(c, s, todo[i].id);
  }

  /** A claim takes with each row the stored enriched payload if there is one at that moment, and the raw one if not. */
  lemma ClaimsLoadWhatIsStored(c: Config, s0: State, es: seq<Event>, w: D.WorkerId, i: nat)
    requires Reached(c, s0, es) && Enabled(c, After(c, s0, es), Load(w)) && i < |D.WorkerOf(After(c, s0, es).del, w).todo|
    ensures var s := After(c, s0, es);
      TookWhatIsStored(s, Apply(c, s, Load(w)), w, D.WorkerOf(s.del, w).todo[i], i)
  {
    hide IsRun, Apply, TookWhatIsStored;
    ReachedIsLinked(c, s0, es);
    LoadTakes(c, After(c, s0, es), w, i);
  }

  /** A POST sends what the claim took: the load its worker remembers, which is for the row it is at. */
  lemma PostsSendTheLoad(c: Config, s0: State, es: seq<Event>, w: D.WorkerId)
    requires Reached(c, s0, es) && D.CanAct(c.del, After(c, s0, es).del, w, D.SendPost)
    ensures var s := After(c, s0, es).del;
      var s' := D.Act(c.del, s, w, D.SendPost);
      && D.WorkerOf(s, w).Delivering? && D.WorkerOf(s, w).todo != []
      && var x := D.WorkerOf(s, w).todo[0];
         s'.sent == s.sent + [x.load] && x.load < |s.loads| && s.loads[x.load].id == x.id
  {
    ReachedIsLinked(c, s0, es);
    var s := After(c, s0, es).del;
    hide D.Grows, IsRun, After, IS.Safe, DS.Safe, Loads, Ordered, SameRows;
    assert NumberedOk(s, s.workers[w]);
  }

  /** The payload of the n-th POST of a run, and the row it goes to. */
  ghost function SentLoad(s: State, n: nat): D.Load
    requires n < |s.del.sent| && s.del.sent[n] < |s.del.loads|
  {
    s.del.loads[s.del.sent[n]]
  }

  /** Payloads advance once: among the POSTs of one message, in the order in which their claims loaded them, across
      all subscribers and workers, raw payloads come first and then the one enriched payload; and each agrees with
      the raw payload on every key but the enrichment key. */
  lemma PayloadsAdvanceOnce(c: Config, s0: State, es: seq<Event>, i: nat, j: nat)
    requires Reached(c, s0, es)
    requires i < |After(c, s0, es).del.sent| && j < |After(c, s0, es).del.sent|
    ensures var s := After(c, s0, es);
      && s.del.sent[i] < |s.del.loads| && s.del.sent[j] < |s.del.loads|
      && var l, m := SentLoad(s, i), SentLoad(s, j);
         l.id.message in s.ing.keys
         && var raw := s.ing.keys[l.id.message].raw;
            && (l.id.message == m.id.message && s.del.sent[i] <= s.del.sent[j] ==> l.body == raw || m.body == l.body)
            && l.body - {"_enrichment"} == raw - {"_enrichment"}
  {
    hide After, IsRun, IS.Safe, DS.Safe, SameRows, BodyFor;
    ReachedIsLinked(c, s0, es);
    var s := After(c, s0, es);
    var l, m := SentLoad(s, i), SentLoad(s, j);
    assert LoadOk(s, l);
    StoredPayloadIsSent(c, s, l.id);
    assert s.del.sent[i] < s.del.sent[j] ==> InOrder(s, l, m);
  }
}
