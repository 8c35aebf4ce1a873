/** What ingestion, enrichment and the reconcilers promise over whole runs. */
module IngestTheorems {
  import opened Types
  import opened Ingest
  import opened IngestSafety

  /** The states that runs from an empty database reach. */
  ghost predicate Reached(c: Config, s0: State, es: seq<Event>) { Initial(s0) && IsRun(c, s0, es) }

  lemma ReachedIsSafe(c: Config, s0: State, es: seq<Event>)
    requires Reached(c, s0, es)
    ensures Safe(c, After(c, s0, es))
  {
    SafeInitially(c, s0);
    SafeRun(c, s0, es);
  }

  // ----- Ingestion is insertion into a set

  datatype Record = Record(kind: string, raw: Payload, subscribers: seq<SubscriberId>)

  /** What has been ingested: one record per message id. */
  ghost function Ingested(s: State): map<MessageId, Record> {
    map id | id in s.keys :: Record(s.keys[id].kind, s.keys[id].raw, AttemptsOf(s, id))
  }

  /** The one event that ingests, and what it adds. */
  ghost predicate Ingests(s: State, e: Event, id: MessageId, r: Record) {
    && e.Handle? && e.action.CommitInsert? && OnEvent(s, e.h) && s.handlers[e.h].stage.Staged?
    && id == BodyOf(s, e.h).id && r == Record(BodyOf(s, e.h).kind, BodyOf(s, e.h).payload, s.handlers[e.h].stage.subs)
  }

  lemma CommitIngests(c: Config, s: State, h: HandlerId)
    requires CanHandle(s, h, CommitInsert) && HandlerOk(s, h) && Scoped(s)
    ensures OnEvent(s, h) && s.handlers[h].stage.Staged? && BodyOf(s, h).id !in s.keys
    ensures Ingested(HandleStep(s, h, CommitInsert)) == Ingested(s)[BodyOf(s, h).id :=
      Record(BodyOf(s, h).kind, BodyOf(s, h).payload, s.handlers[h].stage.subs)]
  {
    hide HandlerLocal;
    assert AttemptsOf(s, BodyOf(s, h).id) == [];
    assert [] + s.handlers[h].stage.subs == s.handlers[h].stage.subs;
  }

  lemma RawStays(s: State, h: HandlerId, a: HandlerAction)
    requires CanHandle(s, h, a) && !a.CommitInsert?
    ensures var s' := HandleStep(s, h, a);
      && s'.keys.Keys == s.keys.Keys && s'.attempts == s.attempts
      && forall id :: id in s.keys ==> s'.keys[id].raw == s.keys[id].raw && s'.keys[id].kind == s.keys[id].kind
  {
    hide HandlerLocal;
  }

  lemma OthersHandle(s: State, h: HandlerId, a: HandlerAction)
    requires CanHandle(s, h, a) && !a.CommitInsert?
    ensures Ingested(HandleStep(s, h, a)) == Ingested(s)
  {
    hide HandleStep, CanHandle;
    RawStays(s, h, a);
  }

  lemma OthersDoNotIngest(c: Config, s: State, e: Event)
    requires !e.Handle? && Enabled(c, s, e)
    ensures Ingested(Apply(c, s, e)) == Ingested(s)
    ensures s.keys.Keys == Apply(c, s, e).keys.Keys && s.activeAt == Apply(c, s, e).activeAt
    ensures forall id :: id in s.keys ==> Apply(c, s, e).keys[id].enriched == s.keys[id].enriched
  {
    hide ReconcileStep, CanReconcile;
    if e.Reconcile? {
      ReconcilingIsQuiet(c, s, e.q, e.step);
      KindsStay(c, s, e.q, e.step);
    }
  }

  lemma KindsStay(c: Config, s: State, q: ReconcilerId, a: CycleAction)
    requires CanReconcile(c, s, q, a)
    ensures forall id :: id in s.keys ==>
      id in ReconcileStep(c, s, q, a).keys && ReconcileStep(c, s, q, a).keys[id].kind == s.keys[id].kind
  {
  }

  /** Every event leaves what is ingested alone or inserts one new id. */
  lemma IngestionIsInsertion(c: Config, s: State, e: Event)
    requires Safe(c, s) && Enabled(c, s, e)
    ensures
      || Ingested(Apply(c, s, e)) == Ingested(s)
      || exists id, r :: Ingests(s, e, id, r) && id !in Ingested(s) && Ingested(Apply(c, s, e)) == Ingested(s)[id := r]
  {
    hide HandleStep, CanHandle, Safe, Ingested, HandlerOk, Scoped;
    if e.Handle? {
      MayAssume(c, s, e.h, e.action);
      if e.action.CommitInsert? {
        CommitIngests(c, s, e.h);
        var b := BodyOf(s, e.h);
        NotYetIngested(s, b.id);
        assert Ingests(s, e, b.id, Record(b.kind, b.payload, s.handlers[e.h].stage.subs));
      } else {
        OthersHandle(s, e.h, e.action);
      }
    } else {
      OthersDoNotIngest(c, s, e);
    }
  }

  lemma MayAssume(c: Config, s: State, h: HandlerId, a: HandlerAction)
    requires Safe(c, s) && CanHandle(s, h, a)
    ensures h in s.handlers && HandlerOk(s, h) && Scoped(s)
  {
    HandlersAreKnown(s, h, a);
  }

  lemma NotYetIngested(s: State, id: MessageId)
    ensures id in Ingested(s) <==> id in s.keys
  {
  }

  lemma {:induction false} IngestedStays(c: Config, s: State, es: seq<Event>, id: MessageId)
    requires Safe(c, s) && IsRun(c, s, es) && id in Ingested(s)
    ensures id in Ingested(After(c, s, es)) && Ingested(After(c, s, es))[id] == Ingested(s)[id]
    decreases |es|
  {
    hide Enabled, Apply, Safe, Ingested, Ingests;
    if es != [] {
      IngestionIsInsertion(c, s, es[0]);
      SafeStep(c, s, es[0]);
      IngestedStays(c, Apply(c, s, es[0]), es[1..], id);
    }
  }

  /** Exactly once: a committed id has one record, with one attempt row for each subscriber that was active when
      its rows were made and none besides, and the record is the same for ever after. */
  lemma ExactlyOnceIngestion(c: Config, s0: State, es: seq<Event>, fs: seq<Event>, id: MessageId)
    requires Reached(c, s0, es) && IsRun(c, After(c, s0, es), fs) && id in After(c, s0, es).keys
    ensures var s, t := After(c, s0, es), After(c, After(c, s0, es), fs);
      && id in s.attempts && id in s.activeAt
      && NoDuplicates(s.attempts[id]) && (set x | x in s.attempts[id]) == s.activeAt[id]
      && id in Ingested(s) && id in Ingested(t) && Ingested(t)[id] == Ingested(s)[id]
  {
    ReachedIsSafe(c, s0, es);
    var s := After(c, s0, es);
    assert KeyOk(c, s, id);
    IngestedStays(c, s, fs, id);
  }

  /** A handler that gets a body whose id is known, such as any re-enqueued body, changes no row and calls no
      provider, whatever it does next. */
  lemma KnownIdChangesNothing(c: Config, s: State, h: HandlerId, a: HandlerAction)
    requires Safe(c, s) && CanHandle(s, h, a) && OnEvent(s, h) && BodyOf(s, h).id in s.keys
    requires !PastGate(s.handlers[h].stage)
    ensures var s' := HandleStep(s, h, a);
      && s'.keys == s.keys && s'.attempts == s.attempts && s'.calls == s.calls && s'.writes == s.writes
      && (h in s'.handlers ==> OnEvent(s', h) && BodyOf(s', h) == BodyOf(s, h) && !PastGate(s'.handlers[h].stage))
  {
    hide HandlerLocal, Keys, Gate, Locks, Cycles, Broker, Acks, Requeues;
    assert HandlerOk(s, h);
  }

  /** Every body a reconciler has published carries an id that is known by then. */
  lemma RequeuedIdsAreKnown(c: Config, s0: State, es: seq<Event>, t: Tag)
    requires Reached(c, s0, es) && t in After(c, s0, es).requeued
    ensures t < |After(c, s0, es).bodies|
    ensures var s := After(c, s0, es); s.bodies[t].Event? && s.bodies[t].id in s.keys
  {
    ReachedIsSafe(c, s0, es);
  }

  /** Handlers of re-published bodies never get past the insert gate. */
  ghost predicate RequeuesIdle(s: State) {
    forall h :: h in s.handlers && s.handlers[h].tag in s.requeued ==> Idling(s.handlers[h].stage)
  }

  predicate Idling(g: Stage) { g.Fresh? || g.Duplicate? || g.Done? }

  lemma IdlingHandled(c: Config, s: State, h: HandlerId, a: HandlerAction)
    requires Safe(c, s) && RequeuesIdle(s) && CanHandle(s, h, a)
    ensures var s' := HandleStep(s, h, a);
      && s'.requeued == s.requeued && (h in s'.handlers ==> s'.handlers[h].tag == s.handlers[h].tag)
      && (h in s'.handlers && s'.handlers[h].tag in s'.requeued ==> Idling(s'.handlers[h].stage))
  {
    hide HandlerLocal, Keys, Gate, Locks, Cycles, Broker, Acks;
    assert HandlerOk(s, h);
  }

  lemma RequeuesIdleHandled(c: Config, s: State, h: HandlerId, a: HandlerAction)
    requires Safe(c, s) && RequeuesIdle(s) && CanHandle(s, h, a)
    ensures RequeuesIdle(HandleStep(s, h, a))
  {
    IdlingHandled(c, s, h, a);
    hide CanHandle, HandleStep, Safe, SameFor, IsFor, Idling;
  }

  lemma RequeuesIdleHappened(c: Config, s: State, e: Event)
    requires !e.Handle? && !e.Reconcile? && RequeuesIdle(s) && CanHappen(c, s, e)
    ensures RequeuesIdle(Happen(c, s, e))
  {
  }

  lemma RequeuesIdleStep(c: Config, s: State, e: Event)
    requires Safe(c, s) && RequeuesIdle(s) && Enabled(c, s, e)
    ensures RequeuesIdle(Apply(c, s, e))
  {
    hide CanHandle, HandleStep, CanReconcile, ReconcileStep, CanHappen, Happen, Safe, Idling;
    match e
    case Handle(h, a) => RequeuesIdleHandled(c, s, h, a);
    case Reconcile(q, a) => NewTagsAreUnused(c, s, q, a);
    case _ => RequeuesIdleHappened(c, s, e);
  }

  lemma NewTagsAreUnused(c: Config, s: State, q: ReconcilerId, a: CycleAction)
    requires Safe(c, s) && CanReconcile(c, s, q, a)
    ensures var s' := ReconcileStep(c, s, q, a);
      && s'.handlers == s.handlers
      && forall h :: h in s.handlers && s.handlers[h].tag in s'.requeued ==> s.handlers[h].tag in s.requeued
  {
    hide Keys, Gate, Locks, Cycles, Broker, Acks, Flush;
    assert forall h :: h in s.handlers ==> HandlerOk(s, h);
  }

  lemma {:induction false} RequeuesIdleRun(c: Config, s: State, es: seq<Event>)
    requires Safe(c, s) && RequeuesIdle(s) && IsRun(c, s, es)
    ensures RequeuesIdle(After(c, s, es))
    decreases |es|
  {
    hide Enabled, Apply, Safe, RequeuesIdle;
    if es != [] {
      RequeuesIdleStep(c, s, es[0]);
      SafeStep(c, s, es[0]);
      RequeuesIdleRun(c, Apply(c, s, es[0]), es[1..]);
    }
  }

  /** Handling a re-enqueued body changes no row and calls no provider, in any run and whatever the handler does. */
  lemma RequeuedBodiesChangeNothing(c: Config, s0: State, es: seq<Event>, h: HandlerId, a: HandlerAction)
    requires Reached(c, s0, es) && CanHandle(After(c, s0, es), h, a)
    requires h in After(c, s0, es).handlers && After(c, s0, es).handlers[h].tag in After(c, s0, es).requeued
    ensures var s := After(c, s0, es);
      var s' := HandleStep(s, h, a);
      && s'.keys == s.keys && s'.attempts == s.attempts && s'.calls == s.calls && s'.writes == s.writes
  {
    hide HandleStep, CanHandle, Safe;
    SafeInitially(c, s0);
    RequeuesIdleRun(c, s0, es);
    ReachedIsSafe(c, s0, es);
    RequeuedIdsAreKnown(c, s0, es, After(c, s0, es).handlers[h].tag);
    KnownIdChangesNothing(c, After(c, s0, es), h, a);
  }

  // ----- Acknowledgement

  /** A body acknowledged was unusable, or its key row and all its attempt rows were committed before. */
  lemma EarlyAckIsDurable(c: Config, s0: State, es: seq<Event>, t: Tag)
    requires Reached(c, s0, es) && t in After(c, s0, es).acked
    ensures t < |After(c, s0, es).bodies|
    ensures var s := After(c, s0, es);
      s.bodies[t].Event? ==> s.bodies[t].id in s.keys && AttemptsRecorded(s, s.bodies[t].id)
  {
    ReachedIsSafe(c, s0, es);
    assert AckOk(After(c, s0, es), t);
  }

  /** No body is lost or held twice: it is queued, acknowledged, or held by exactly one live handler. */
  lemma NoBodyIsLost(c: Config, s0: State, es: seq<Event>, t: Tag)
    requires Reached(c, s0, es) && t < |After(c, s0, es).bodies|
    ensures var s := After(c, s0, es);
      && (t in s.queue || t in s.acked || exists h :: Holds(s, h, t))
      && !(t in s.queue && t in s.acked)
      && (forall h :: Holds(s, h, t) ==> t !in s.queue && t !in s.acked)
      && (forall g, h :: Holds(s, g, t) && Holds(s, h, t) ==> g == h)
  {
    ReachedIsSafe(c, s0, es);
    assert TagOk(After(c, s0, es), t);
  }

  // ----- Enrichment

  /** Per id: at most three provider calls, at most one payload write, a stored payload exactly when there was
      one, and it differs from the raw payload in the enrichment key only; enriched means stored; nothing is ever
      dispatched. */
  lemma EnrichedAtMostOnce(c: Config, s0: State, es: seq<Event>, id: MessageId)
    requires Reached(c, s0, es) && id in After(c, s0, es).keys
    ensures var s := After(c, s0, es);
      var k := s.keys[id];
      && Count(s.calls, id) <= 3
      && Count(s.writes, id) == (if k.enriched.Some? then 1 else 0)
      && (k.enriched.Some? ==> "_enrichment" in k.enriched.value && k.enriched.value - {"_enrichment"} == k.raw - {"_enrichment"})
      && (k.status == Enriched ==> k.enriched.Some?)
      && k.status != Dispatched
  {
    ReachedIsSafe(c, s0, es);
    assert KeyOk(c, After(c, s0, es), id);
  }

  /** At most one handler is past the insert gate of an id. */
  lemma OneHandlerPerId(c: Config, s0: State, es: seq<Event>, g: HandlerId, h: HandlerId)
    requires Reached(c, s0, es)
    requires var s := After(c, s0, es);
      && OnEvent(s, g) && PastGate(s.handlers[g].stage) && OnEvent(s, h) && PastGate(s.handlers[h].stage)
      && BodyOf(s, g).id == BodyOf(s, h).id
    ensures g == h
  {
    ReachedIsSafe(c, s0, es);
    assert g != h ==> Apart(After(c, s0, es), g, h);
  }

  /** A stored payload is not overwritten by the handlers ... */
  lemma PayloadKept(c: Config, s: State, h: HandlerId, a: HandlerAction, id: MessageId)
    requires Safe(c, s) && CanHandle(s, h, a) && id in s.keys && s.keys[id].enriched.Some?
    ensures id in HandleStep(s, h, a).keys && HandleStep(s, h, a).keys[id].enriched == s.keys[id].enriched
  {
    hide HandlerLocal, Keys, Gate, Locks, Cycles, Broker, Acks, Requeues;
    assert HandlerOk(s, h);
  }

  /** ... nor cleared by anything: it stays for ever. */
  lemma {:induction false} StoredPayloadStays(c: Config, s: State, es: seq<Event>, id: MessageId)
    requires Safe(c, s) && IsRun(c, s, es) && id in s.keys && s.keys[id].enriched.Some?
    ensures id in After(c, s, es).keys && After(c, s, es).keys[id].enriched == s.keys[id].enriched
    decreases |es|
  {
    hide CanHandle, HandleStep, CanReconcile, ReconcileStep, Safe, Happen, CanHappen;
    if es != [] {
      var e := es[0];
      if e.Handle? { PayloadKept(c, s, e.h, e.action, id); } else { OthersDoNotIngest(c, s, e); }
      SafeStep(c, s, e);
      StoredPayloadStays(c, Apply(c, s, e), es[1..], id);
    }
  }

  // ----- What recovery can and cannot do

  /** A live handler that can still store a payload for `id`. */
  ghost predicate MayEnrich(s: State, h: HandlerId, id: MessageId) {
    IsFor(s, h, id) && (s.handlers[h].stage.Committed? || s.handlers[h].stage.Enriching? || s.handlers[h].stage.HasPayload?)
  }

  ghost predicate Hopeless(s: State, id: MessageId) {
    id in s.keys && s.keys[id].enriched.None? && forall h :: !MayEnrich(s, h, id)
  }

  lemma HopelessHandled(c: Config, s: State, h: HandlerId, a: HandlerAction, id: MessageId)
    requires Safe(c, s) && CanHandle(s, h, a) && Hopeless(s, id)
    ensures var s' := HandleStep(s, h, a);
      id in s'.keys && s'.keys[id].enriched.None? && !MayEnrich(s', h, id)
  {
    hide HandlerLocal, Keys, Gate, Locks, Cycles, Broker, Acks, Requeues;
    assert HandlerOk(s, h) && !MayEnrich(s, h, id);
  }

  /** A step of another handler leaves this one as it is. */
  lemma OthersMayNotEnrich(c: Config, s: State, h: HandlerId, a: HandlerAction, g: HandlerId, id: MessageId)
    requires CanHandle(s, h, a) && g != h && !MayEnrich(s, g, id)
    ensures !MayEnrich(HandleStep(s, h, a), g, id)
  {
    hide CanHandle, HandleStep, SameFor;
  }

  lemma HopelessHappened(c: Config, s: State, e: Event, id: MessageId)
    requires Handlers(s) && !e.Handle? && Enabled(c, s, e) && Hopeless(s, id)
    ensures forall h :: !MayEnrich(Apply(c, s, e), h, id)
  {
    hide CanReconcile, ReconcileStep;
    var s' := Apply(c, s, e);
    if e.Reconcile? { ReconcilingIsQuiet(c, s, e.q, e.step); }
    forall h ensures !MayEnrich(s', h, id) {
      assert !MayEnrich(s, h, id);
      assert h in s.handlers ==> Knows(s, h);
    }
  }

  lemma HopelessStep(c: Config, s: State, e: Event, id: MessageId)
    requires Safe(c, s) && Enabled(c, s, e) && Hopeless(s, id)
    ensures Hopeless(Apply(c, s, e), id)
  {
    hide CanHandle, HandleStep, Apply, Enabled, Handlers, Keys, Gate, Locks, Cycles, Broker, Acks, Requeues, MayEnrich;
    var s' := Apply(c, s, e);
    if e.Handle? {
      HandleIs(c, s, e);
      HopelessHandled(c, s, e.h, e.action, id);
      forall h ensures !MayEnrich(s', h, id) {
        assert !MayEnrich(s, h, id);
        if h != e.h { OthersMayNotEnrich(c, s, e.h, e.action, h, id); }
      }
    } else {
      OthersDoNotIngest(c, s, e);
      HopelessHappened(c, s, e, id);
    }
  }

  lemma HandleIs(c: Config, s: State, e: Event)
    requires e.Handle? && Enabled(c, s, e)
    ensures CanHandle(s, e.h, e.action) && Apply(c, s, e) == HandleStep(s, e.h, e.action)
  {
    hide CanHandle, HandleStep;
  }

  lemma {:induction false} HopelessRun(c: Config, s: State, es: seq<Event>, id: MessageId)
    requires Safe(c, s) && IsRun(c, s, es) && Hopeless(s, id)
    ensures Hopeless(After(c, s, es), id)
    decreases |es|
  {
    hide Enabled, Apply, Safe, Hopeless;
    if es != [] {
      HopelessStep(c, s, es[0], id);
      SafeStep(c, s, es[0]);
      HopelessRun(c, Apply(c, s, es[0]), es[1..], id);
    }
  }

  lemma PersistNow(c: Config, s: State, h: HandlerId, id: MessageId)
    requires Safe(c, s) && IsFor(s, h, id) && s.handlers[h].stage.HasPayload?
    ensures Enabled(c, s, Handle(h, Persist))
    ensures id in Apply(c, s, Handle(h, Persist)).keys && Apply(c, s, Handle(h, Persist)).keys[id].enriched.Some?
  {
    hide Keys, Gate, Locks, Cycles, Broker, Acks, Requeues, HandlerLocal;
    assert HandlerOk(s, h);
  }

  lemma CallNow(c: Config, s: State, h: HandlerId, id: MessageId, value: Json)
    requires Safe(c, s) && IsFor(s, h, id) && s.handlers[h].stage.Enriching?
    ensures Enabled(c, s, Handle(h, CallProvider(Enrichment(value))))
    ensures var t := Apply(c, s, Handle(h, CallProvider(Enrichment(value))));
      IsFor(t, h, id) && t.handlers[h].stage.HasPayload?
  {
    hide Keys, Gate, Locks, Cycles, Broker, Acks, Requeues, HandlerLocal;
    assert HandlerOk(s, h);
  }

  lemma AckNow(c: Config, s: State, h: HandlerId, id: MessageId)
    requires IsFor(s, h, id) && s.handlers[h].stage.Committed?
    ensures Enabled(c, s, Handle(h, Ack))
    ensures IsFor(Apply(c, s, Handle(h, Ack)), h, id) && Apply(c, s, Handle(h, Ack)).handlers[h].stage.Enriching?
  {
    hide HandlerLocal;
  }

  /** A handler that may still enrich has a way to do so. */
  lemma MayEnrichCan(c: Config, s: State, h: HandlerId, id: MessageId) returns (es: seq<Event>)
    requires Safe(c, s) && MayEnrich(s, h, id)
    ensures IsRun(c, s, es) && id in After(c, s, es).keys && After(c, s, es).keys[id].enriched.Some?
    decreases if s.handlers[h].stage.Committed? then 2 else if s.handlers[h].stage.Enriching? then 1 else 0
  {
    hide Safe, Enabled, Apply;
    var e;
    if s.handlers[h].stage.HasPayload? {
      e := Handle(h, Persist);
      PersistNow(c, s, h, id);
      RunOfOne(c, s, e);
      es := [e];
      return;
    } else if s.handlers[h].stage.Enriching? {
      e := Handle(h, CallProvider(Enrichment(Json(""))));
      CallNow(c, s, h, id, Json(""));
    } else {
      e := Handle(h, Ack);
      AckNow(c, s, h, id);
    }
    SafeStep(c, s, e);
    var rest := MayEnrichCan(c, Apply(c, s, e), h, id);
    RunPrepends(c, s, e, rest);
    es := [e] + rest;
  }

  /** A message without a payload can still get one if and only if the handler that inserted it is alive and has
      not failed. Reconcilers cannot help: what they re-enqueue is a duplicate. */
  lemma EnrichmentStillPossibleIff(c: Config, s0: State, es: seq<Event>, id: MessageId)
    requires Reached(c, s0, es) && id in After(c, s0, es).keys && After(c, s0, es).keys[id].enriched.None?
    ensures var s := After(c, s0, es);
      (exists fs :: IsRun(c, s, fs) && id in After(c, s, fs).keys && After(c, s, fs).keys[id].enriched.Some?)
      <==> (exists h :: MayEnrich(s, h, id))
  {
    hide Safe, Enabled, Apply, MayEnrich;
    ReachedIsSafe(c, s0, es);
    var s := After(c, s0, es);
    if h :| MayEnrich(s, h, id) {
      var fs := MayEnrichCan(c, s, h, id);
    } else {
      forall fs | IsRun(c, s, fs) ensures Hopeless(After(c, s, fs), id) {
        HopelessRun(c, s, fs, id);
      }
    }
  }

  // ----- Reconciler accounting

  /** With any number of reconcilers, time-outs and cycles that end without a commit, the stored count never
      exceeds the publish calls issued for the id, nor the cap. */
  lemma ReconcilesAreBacked(c: Config, s0: State, es: seq<Event>, id: MessageId)
    requires Reached(c, s0, es) && id in After(c, s0, es).keys
    ensures var s := After(c, s0, es);
      s.keys[id].reconcileCount <= Count(s.issued, id) && s.keys[id].reconcileCount <= c.maxReconciles
  {
    ReachedIsSafe(c, s0, es);
    assert KeyOk(c, After(c, s0, es), id);
  }

  /** A cycle's snapshot agrees with the table, so its edits can only raise a count. */
  ghost predicate CycleCurrent(s: State, y: Cycle) {
    && (forall i :: 0 <= i < |y.batch| ==> y.batch[i] in y.counts)
    && (forall id :: id in y.counts ==> id in s.keys && s.keys[id].reconcileCount == y.counts[id])
    && (forall id :: id in y.staged && y.staged[id].Bump? ==> id in y.counts && y.staged[id].count == y.counts[id] + 1)
  }

  ghost predicate Single(s: State) {
    && (forall p, q :: p in s.cycles && q in s.cycles ==> p == q)
    && (forall q :: q in s.cycles ==> CycleCurrent(s, s.cycles[q]))
  }

  /** A cycle starts only when none is in progress. */
  ghost predicate IsSingleRun(c: Config, s: State, es: seq<Event>)
    decreases |es|
  {
    es == [] ||
    (Enabled(c, s, es[0]) && (es[0].LoadStale? ==> s.cycles == map[]) && IsSingleRun(c, Apply(c, s, es[0]), es[1..]))
  }

  ghost predicate CountsRise(s: State, s': State) {
    forall id :: id in s.keys ==> id in s'.keys && s'.keys[id].reconcileCount >= s.keys[id].reconcileCount
  }

  lemma SingleHandled(c: Config, s: State, h: HandlerId, a: HandlerAction)
    requires Safe(c, s) && CanHandle(s, h, a) && Single(s)
    ensures Single(HandleStep(s, h, a)) && CountsRise(s, HandleStep(s, h, a))
  {
    hide HandleStep, CanHandle, Safe;
    MayAssume(c, s, h, a);
    CountsStay(s, h, a);
    var s' := HandleStep(s, h, a);
    forall q | q in s'.cycles ensures CycleCurrent(s', s'.cycles[q]) { assert CycleCurrent(s, s.cycles[q]); }
  }

  lemma CountsStay(s: State, h: HandlerId, a: HandlerAction)
    requires CanHandle(s, h, a) && HandlerOk(s, h)
    ensures forall id :: id in s.keys ==>
      id in HandleStep(s, h, a).keys && HandleStep(s, h, a).keys[id].reconcileCount == s.keys[id].reconcileCount
  {
    hide HandlerLocal;
  }

  lemma SingleReconciled(c: Config, s: State, q: ReconcilerId, a: CycleAction)
    requires CanReconcile(c, s, q, a) && Single(s)
    ensures Single(ReconcileStep(c, s, q, a)) && CountsRise(s, ReconcileStep(c, s, q, a))
  {
    assert CycleCurrent(s, s.cycles[q]);
  }

  lemma SingleHappened(c: Config, s: State, e: Event)
    requires !e.Handle? && !e.Reconcile? && CanHappen(c, s, e) && Single(s) && (e.LoadStale? ==> s.cycles == map[])
    ensures Single(Happen(c, s, e)) && CountsRise(s, Happen(c, s, e))
  {
    var s' := Happen(c, s, e);
    forall q | q in s'.cycles ensures CycleCurrent(s', s'.cycles[q]) {
      assert q in s.cycles ==> CycleCurrent(s, s.cycles[q]);
    }
  }

  /** With one reconciler at a time a stored count never goes down. */
  lemma {:induction false} CountsAreMonotone(c: Config, s: State, es: seq<Event>)
    requires Safe(c, s) && Single(s) && IsSingleRun(c, s, es)
    ensures IsRun(c, s, es) && CountsRise(s, After(c, s, es))
    decreases |es|
  {
    hide CanHandle, HandleStep, CanReconcile, ReconcileStep, CanHappen, Happen, Safe, Single;
    if es != [] {
      var e := es[0];
      match e {
        case Handle(h, a) => SingleHandled(c, s, h, a);
        case Reconcile(q, a) => SingleReconciled(c, s, q, a);
        case _ => SingleHappened(c, s, e);
      }
      SafeStep(c, s, e);
      CountsAreMonotone(c, Apply(c, s, e), es[1..]);
    }
  }
}
