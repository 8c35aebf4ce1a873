/** The consumer as code over the stored tables: the message handler and one reconciler cycle. As in the worker,
    `trace` records every event since `start`, and any number of events of everything else may happen at an await
    point, so what is proved of the machine's runs holds of this code. */
module Consumer {
  import opened Types
  import opened Ingest
  import opened IngestSafety

  datatype Me = HandlerMe(h: HandlerId) | ReconcilerMe(q: ReconcilerId)

  /** The steps of one handler within a trace. */
  ghost function ByHandler(es: seq<Event>, h: HandlerId): seq<HandlerAction> {
    if es == [] then [] else
    var last := es[|es| - 1];
    ByHandler(es[..|es| - 1], h) + if last.Handle? && last.h == h then [last.action] else []
  }

  ghost function ByReconciler(es: seq<Event>, q: ReconcilerId): seq<CycleAction> {
    if es == [] then [] else
    var last := es[|es| - 1];
    ByReconciler(es[..|es| - 1], q) + if last.Reconcile? && last.q == q then [last.step] else []
  }

  lemma TraceAppend(es: seq<Event>, e: Event)
    ensures forall h :: ByHandler(es + [e], h) == ByHandler(es, h) + if e.Handle? && e.h == h then [e.action] else []
    ensures forall q :: ByReconciler(es + [e], q) == ByReconciler(es, q) + if e.Reconcile? && e.q == q then [e.step] else []
  {
    assert (es + [e])[..|es|] == es;
  }

  /** The calls of one enrichment: transient errors are tried again, up to three tries in all. */
  ghost predicate IsEnrichment(calls: seq<HandlerAction>) {
    && 1 <= |calls| <= 3
    && (forall i :: 0 <= i < |calls| ==> calls[i].CallProvider?)
    && (forall i :: 0 <= i < |calls| - 1 ==> calls[i].answer.TransientError?)
    && (calls[|calls| - 1].answer.TransientError? ==> |calls| == 3)
  }

  /** What follows the last call: the payload or the fatal error is stored; after transient errors nothing is. */
  function Storing(answer: Answer): seq<HandlerAction> {
    match answer
    case Enrichment(_) => [Persist]
    case TransientError => []
    case FatalError => [PersistError]
  }

  lemma KnownInsert(s: State, h: HandlerId)
    requires OnEvent(s, h) && BodyOf(s, h).id in s.keys
    ensures AfterInsert(s, h) == SetStage(s, h, Duplicate)
  {
    hide HandlerLocal;
  }

  lemma NewInsert(s: State, h: HandlerId)
    requires OnEvent(s, h) && BodyOf(s, h).id !in s.keys
    ensures AfterInsert(s, h) == SetStage(s, h, Inserted(s.clock)).(inserting := s.inserting[BodyOf(s, h).id := h])
  {
    hide HandlerLocal;
  }

  datatype Handling = Discarded | Skipped | Ingested(attempts: nat, answer: Answer)

  /** The whole list of steps that each way of handling a message takes. */
  ghost function Script(r: Handling, order: seq<SubscriberId>, calls: seq<HandlerAction>): seq<HandlerAction> {
    match r
    case Discarded => [Ack]
    case Skipped => [Insert, Ack]
    case Ingested(_, answer) => [Insert, ListSubscribers(order), CommitInsert, Ack] + calls + Storing(answer)
  }

  /** The pending changes after one row: none is added when the publish timed out or raised. */
  function EditsAfter(edits: map<MessageId, Edit>, id: MessageId, count: nat, a: CycleAction): map<MessageId, Edit> {
    if a.GiveUp? then edits[id := Abandon(count)]
    else if a.Publish? && a.result.Sent? then edits[id := Bump(count + 1)]
    else edits
  }

  /** The change is what the row now holds; the other columns are not part of it. */
  predicate EditStored(k: Key, e: Edit) {
    match e
    case Bump(n) => k.reconcileCount == n
    case Abandon(n) => k.status.Abandoned? && k.error == Some(GaveUp(n))
  }

  /** The rows were received and older than the stale age, and these were their counts. */
  ghost predicate LoadedStale(c: Config, ids: seq<MessageId>, counts: map<MessageId, nat>, loaded: map<MessageId, Key>, readAt: int) {
    forall i :: 0 <= i < |ids| ==>
      && ids[i] in counts && ids[i] in loaded && counts[ids[i]] == loaded[ids[i]].reconcileCount
      && loaded[ids[i]].status == Received && loaded[ids[i]].receivedAt + c.staleAfter < readAt
  }

  predicate Raises(a: CycleAction) { a.Publish? && a.result.Raised? }

  ghost predicate DealtWith(c: Config, ids: seq<MessageId>, counts: map<MessageId, nat>, steps: seq<CycleAction>,
                            edits: map<MessageId, Edit>)
  {
    |steps| == |ids| && forall i :: 0 <= i < |ids| ==> ids[i] in counts && RowDealtWith(c, ids[i], counts[ids[i]], steps[i], edits)
  }

  lemma OneMoreDealtWith(c: Config, ids: seq<MessageId>, counts: map<MessageId, nat>, steps: seq<CycleAction>,
                         edits: map<MessageId, Edit>, id: MessageId, a: CycleAction)
    requires DealtWith(c, ids, counts, steps, edits) && (forall x :: x in edits ==> x in ids)
    requires id !in ids && id in counts && (a.GiveUp? || a.Publish?) && !Raises(a)
    requires a.GiveUp? <==> counts[id] >= c.maxReconciles
    ensures DealtWith(c, ids + [id], counts, steps + [a], EditsAfter(edits, id, counts[id], a))
    ensures forall x :: x in EditsAfter(edits, id, counts[id], a) ==> x in ids + [id]
    ensures |steps + [a]| == |ids| + 1
  {
    forall i | 0 <= i < |ids| ensures RowDealtWith(c, ids[i], counts[ids[i]], steps[i], EditsAfter(edits, id, counts[id], a)) {
      assert RowDealtWith(c, ids[i], counts[ids[i]], steps[i], edits) && ids[i] in ids;
    }
  }

  lemma NoneDealtWith(c: Config, counts: map<MessageId, nat>)
    ensures DealtWith(c, [], counts, [], map[])
  {
  }

  /** What became of a loaded row: given up at the cap, or published; only a publish that went through raises the
      count, and it does so by one. */
  ghost predicate RowDealtWith(c: Config, id: MessageId, count: nat, a: CycleAction, edits: map<MessageId, Edit>) {
    && (a.GiveUp? || (a.Publish? && !a.result.Raised?))
    && (a.GiveUp? <==> count >= c.maxReconciles)
    && (a.GiveUp? ==> id in edits && edits[id] == Abandon(count))
    && (a.Publish? && a.result.Sent? ==> id in edits && edits[id] == Bump(count + 1))
    && (a.Publish? && a.result.TimedOut? ==> id !in edits)
  }

  /** `seen` is all that happened before the insert of h, and by then the id had a row, or had none. */
  ghost predicate InsertAfter(c: Config, start: State, es: seq<Event>, h: HandlerId, id: MessageId, seen: seq<Event>, known: bool) {
    seen + [Handle(h, Insert)] <= es && IsRun(c, start, seen) && (known <==> id in After(c, start, seen).keys)
  }

  lemma InsertStaysAfter(c: Config, start: State, es: seq<Event>, fs: seq<Event>, h: HandlerId, id: MessageId, seen: seq<Event>, known: bool)
    requires InsertAfter(c, start, es, h, id, seen, known) && es <= fs
    ensures InsertAfter(c, start, fs, h, id, seen, known)
  {
  }

  class Store {
    const c: Config
    var clock: int
    var subs: Subscribers
    var keys: map<MessageId, Key>
    var attempts: map<MessageId, seq<SubscriberId>>
    var inserting: map<MessageId, HandlerId>
    var hasProvider: bool
    ghost const start: State
    ghost var world: State
    ghost var trace: seq<Event>

    ghost predicate Logged()
      reads this`world, this`trace
    {
      Safe(c, start) && IsRun(c, start, trace) && world == After(c, start, trace)
    }

    ghost predicate Valid()
      reads this
    {
      && Logged()
      && clock == world.clock && subs == world.subs && keys == world.keys
      && attempts == world.attempts && inserting == world.inserting
    }

    constructor (c: Config, now: int)
      ensures Valid() && this.c == c && Initial(start) && trace == []
    {
      this.c := c;
      clock, subs, keys, attempts, inserting, hasProvider := now, map[], map[], map[], map[], false;
      start := State(now, map[], map[], map[], map[], [], {}, {}, map[], map[], map[], map[], map[], map[], {});
      world := State(now, map[], map[], map[], map[], [], {}, {}, map[], map[], map[], map[], map[], map[], {});
      trace := [];
      new;
      SafeInitially(c, start);
    }

    ghost method Log(e: Event)
      requires Logged() && Enabled(c, world, e)
      modifies this`world, this`trace
      ensures Logged() && trace == old(trace) + [e] && world == Apply(c, old(world), e)
      ensures forall h :: ByHandler(trace, h) == ByHandler(old(trace), h) + if e.Handle? && e.h == h then [e.action] else []
      ensures forall q :: ByReconciler(trace, q) == ByReconciler(old(trace), q) + if e.Reconcile? && e.q == q then [e.step] else []
    {
      hide Enabled, Apply, Safe;
      RunOfOne(c, world, e);
      RunsCompose(c, start, trace, [e]);
      TraceAppend(trace, e);
      world := Apply(c, world, e);
      trace := trace + [e];
    }

    /** Logs a step of handler h. */
    ghost method Step(h: HandlerId, a: HandlerAction)
      requires Logged() && CanHandle(world, h, a)
      modifies this`world, this`trace
      ensures Logged() && trace == old(trace) + [Handle(h, a)] && world == HandleStep(old(world), h, a)
      ensures ByHandler(trace, h) == ByHandler(old(trace), h) + [a]
    {
      hide HandleStep, CanHandle, Logged;
      Log(Handle(h, a));
    }

    /** An await point of `me`: any number of events of everything else may happen here. Callers know no more
        than the contract. */
    method Await(ghost me: Me)
      requires Valid()
      modifies this
      ensures Valid() && old(trace) <= trace && old(clock) <= clock
      ensures old(world).bodies <= world.bodies && old(keys).Keys <= keys.Keys
      ensures me.HandlerMe? && me.h in old(world).handlers ==>
        me.h in world.handlers && world.handlers[me.h] == old(world).handlers[me.h]
      ensures me.HandlerMe? ==> ByHandler(trace, me.h) == ByHandler(old(trace), me.h)
      ensures me.ReconcilerMe? ==>
        && (me.q in world.cycles <==> me.q in old(world).cycles)
        && (me.q in world.cycles ==> world.cycles[me.q] == old(world).cycles[me.q])
        && ByReconciler(trace, me.q) == ByReconciler(old(trace), me.q)
    {
    }

    /** Handler h works on `body` and has reached `stage`. */
    ghost predicate Working(h: HandlerId, body: Body, stage: Stage)
      reads this
    {
      Knows(world, h) && BodyOf(world, h) == body && world.handlers[h].stage == stage
    }

    lemma HandlerIsOk(h: HandlerId)
      requires Valid() && h in world.handlers
      ensures HandlerOk(world, h)
    {
      SafeRun(c, start, trace);
    }

    lemma HolderIsInserting(id: MessageId)
      requires Valid() && id in inserting
      ensures OnEvent(world, inserting[id]) && Uncommitted(world.handlers[inserting[id]].stage)
      ensures BodyOf(world, inserting[id]).id == id
    {
      SafeRun(c, start, trace);
      assert LockOk(world, id);
    }

    /** Acknowledges: the last broker exchange of an unusable or duplicate message, the early one otherwise. */
    method Acknowledge(h: HandlerId, body: Body, ghost stage: Stage)
      requires Valid() && Working(h, body, stage)
      requires stage.Duplicate? || stage.Committed? || (stage.Fresh? && !body.Event?)
      modifies this
      ensures Valid() && old(trace) <= trace && ByHandler(trace, h) == ByHandler(old(trace), h) + [Ack]
      ensures Working(h, body, AfterAckStage(stage)) && world.handlers[h].tag in world.acked
    {
      hide HandleStep, CanHandle, HandlerLocal, Logged;
      Await(HandlerMe(h));
      AckIs(world, h);
      Step(h, Ack);
    }

    /** An insert waits while another handler's insert of the id is uncommitted. One way for that to end is that
        the other handler dies. */
    method AwaitIndex(h: HandlerId, body: Body)
      requires Valid() && Working(h, body, Fresh) && body.Event?
      modifies this
      ensures Valid() && old(trace) <= trace && old(clock) <= clock && ByHandler(trace, h) == ByHandler(old(trace), h)
      ensures Working(h, body, Fresh) && (body.id in keys || body.id !in inserting)
    {
      hide HandleStep, CanHandle, HandlerLocal, Logged, HandlerOk;
      Await(HandlerMe(h));
      if body.id in inserting {
        var holder := inserting[body.id];
        HolderIsInserting(body.id);
        DieIs(world, holder);
        inserting := inserting - {body.id};
        Step(holder, Die);
      }
    }

    lemma SeenSoFar(id: MessageId)
      requires Valid()
      ensures IsRun(c, start, trace) && (id in After(c, start, trace).keys <==> id in keys)
    {
    }

    /** The insert finds the id taken and does nothing. */
    method InsertConflicts(h: HandlerId, body: Body) returns (ghost seen: seq<Event>)
      requires Valid() && Working(h, body, Fresh) && body.Event? && body.id in keys
      modifies this
      ensures Valid() && old(trace) <= trace && ByHandler(trace, h) == ByHandler(old(trace), h) + [Insert]
      ensures Working(h, body, Duplicate) && keys == old(keys)
      ensures InsertAfter(c, start, trace, h, body.id, seen, true)
    {
      hide AfterInsert, HandleStep, CanHandle, HandlerLocal, Logged;
      InsertIs(world, h);
      KnownInsert(world, h);
      SeenSoFar(body.id);
      seen := trace;
      Step(h, Insert);
    }

    /** The insert succeeds; the row is not visible before the commit, but its index entry is taken. */
    method InsertSucceeds(h: HandlerId, body: Body) returns (at: int, ghost seen: seq<Event>)
      requires Valid() && Working(h, body, Fresh) && body.Event? && body.id !in keys && body.id !in inserting
      modifies this
      ensures Valid() && old(trace) <= trace && ByHandler(trace, h) == ByHandler(old(trace), h) + [Insert]
      ensures Working(h, body, Inserted(at)) && keys == old(keys) && at == clock == old(clock)
      ensures InsertAfter(c, start, trace, h, body.id, seen, false)
    {
      hide AfterInsert, HandleStep, CanHandle, HandlerLocal, Logged;
      InsertIs(world, h);
      NewInsert(world, h);
      at := clock;
      SeenSoFar(body.id);
      inserting := inserting[body.id := h];
      seen := trace;
      Step(h, Insert);
    }

    /** The atomic insert: a new key row, or nothing when the id is known. */
    method InsertIdempotencyKey(h: HandlerId, body: Body) returns (inserted: bool, at: int, ghost seen: seq<Event>)
      requires Valid() && Working(h, body, Fresh) && body.Event?
      modifies this
      ensures Valid() && old(trace) <= trace && ByHandler(trace, h) == ByHandler(old(trace), h) + [Insert]
      ensures Working(h, body, if inserted then Inserted(at) else Duplicate)
      ensures inserted ==> old(clock) <= at == clock
      ensures (inserted <==> body.id !in keys) && InsertAfter(c, start, trace, h, body.id, seen, !inserted)
    {
      hide Logged, ByHandler, InsertAfter;
      AwaitIndex(h, body);
      inserted, at := body.id !in keys, 0;
      if inserted { at, seen := InsertSucceeds(h, body); } else { seen := InsertConflicts(h, body); }
    }

    /** Lists the active subscribers, in any order. */
    method ListActive() returns (order: seq<SubscriberId>)
      requires Valid()
      ensures NoDuplicates(order) && (set x | x in order) == ActiveSubscribers(world.subs)
      ensures forall x :: x in order <==> x in subs && subs[x].active && !subs[x].deleted
    {
      var left := set x | x in subs && subs[x].active && !subs[x].deleted;
      ghost var all := left;
      assert all == ActiveSubscribers(world.subs);
      order := [];
      while left != {}
        invariant NoDuplicates(order) && left <= all
        invariant forall x :: x in order <==> x in all && x !in left
        decreases left
      {
        var x :| x in left;
        order, left := order + [x], left - {x};
      }
    }

    /** One attempt row per active subscriber, counted, in the transaction of the insert. */
    method CreateDeliveryAttempts(h: HandlerId, body: Body, at: int) returns (count: nat, added: seq<SubscriberId>)
      requires Valid() && Working(h, body, Inserted(at)) && body.Event?
      modifies this
      ensures Valid() && old(trace) <= trace && ByHandler(trace, h) == ByHandler(old(trace), h) + [ListSubscribers(added)]
      ensures Working(h, body, Staged(at, added)) && count == |added|
      ensures NoDuplicates(added) && forall x :: x in added <==> x in subs && subs[x].active && !subs[x].deleted
    {
      hide HandleStep, CanHandle, HandlerLocal, Logged;
      Await(HandlerMe(h));
      var subscribers := ListActive();
      count, added := 0, [];
      for i := 0 to |subscribers|
        invariant added == subscribers[..i] && count == i
      {
        added, count := added + [subscribers[i]], count + 1;
      }
      assert added == subscribers;
      ListIs(world, h, added);
      Step(h, ListSubscribers(added));
    }

    /** Commits the key row and its attempt rows together. */
    method CommitInsertion(h: HandlerId, body: Body, at: int, added: seq<SubscriberId>)
      requires Valid() && Working(h, body, Staged(at, added)) && body.Event?
      modifies this
      ensures Valid() && old(trace) <= trace && ByHandler(trace, h) == ByHandler(old(trace), h) + [CommitInsert]
      ensures Working(h, body, Committed) && body.id in keys && body.id in attempts && attempts[body.id] == added
      ensures keys[body.id] == Key(body.kind, body.payload, None, Received, None, 0, at)
    {
      hide HandleStep, CanHandle, HandlerLocal, Logged, HandlerOk;
      Await(HandlerMe(h));
      NothingStoredYet(h, body);
      keys := keys[body.id := Key(body.kind, body.payload, None, Received, None, 0, at)];
      attempts := attempts[body.id := added];
      inserting := inserting - {body.id};
      CommitIs(world, h);
      Step(h, CommitInsert);
    }

    lemma NothingStoredYet(h: HandlerId, body: Body)
      requires Valid() && h in world.handlers && Working(h, body, world.handlers[h].stage) && world.handlers[h].stage.Staged? && body.Event?
      ensures AttemptsOf(world, body.id) == []
      ensures forall xs: seq<SubscriberId> :: [] + xs == xs
    {
      SafeRun(c, start, trace);
      assert HandlerOk(world, h);
    }

    /** The provider: whatever it answers. */
    method CallProviderOnce() returns (answer: Answer)
    {
      answer :| true;
    }

    method TryOnce(h: HandlerId, body: Body, ghost tries: nat) returns (answer: Answer)
      requires Valid() && body.Event? && Working(h, body, Enriching(tries)) && tries < PROVIDER_TRIES
      modifies this
      ensures Valid() && old(trace) <= trace && ByHandler(trace, h) == ByHandler(old(trace), h) + [CallProvider(answer)]
      ensures Working(h, body, AfterAnswer(body.payload, tries + 1, answer))
    {
      hide HandleStep, CanHandle, HandlerLocal, Logged;
      Await(HandlerMe(h));
      answer := CallProviderOnce();
      CallIs(world, h, answer);
      Step(h, CallProvider(answer));
    }

    /** Up to three tries; only transient errors are tried again. */
    method EnrichWithRetry(h: HandlerId, body: Body) returns (answer: Answer, ghost calls: seq<HandlerAction>)
      requires Valid() && Working(h, body, Enriching(0)) && body.Event?
      modifies this
      ensures Valid() && old(trace) <= trace && ByHandler(trace, h) == ByHandler(old(trace), h) + calls
      ensures IsEnrichment(calls) && calls[|calls| - 1] == CallProvider(answer)
      ensures 1 <= |calls| <= 3 && forall i :: 0 <= i < |calls| - 1 ==> calls[i] == CallProvider(TransientError)
      ensures Working(h, body, AfterAnswer(body.payload, |calls|, answer))
      ensures answer.TransientError? ==> |calls| == 3
    {
      hide HandleStep, CanHandle, HandlerLocal, Logged;
      answer := TransientError;
      calls := [];
      ghost var before := ByHandler(trace, h);
      var tries := 0;
      while tries < PROVIDER_TRIES && answer.TransientError?
        invariant Valid() && old(trace) <= trace && tries == |calls| <= PROVIDER_TRIES
        invariant ByHandler(trace, h) == before + calls
        invariant forall i :: 0 <= i < |calls| ==> calls[i].CallProvider?
        invariant forall i :: 0 <= i < |calls| - 1 ==> calls[i].answer.TransientError?
        invariant calls != [] ==> calls[|calls| - 1] == CallProvider(answer)
        invariant calls == [] ==> answer.TransientError?
        invariant Working(h, body, if calls == [] then Enriching(0) else AfterAnswer(body.payload, tries, answer))
      {
        answer := TryOnce(h, body, tries);
        calls, tries := calls + [CallProvider(answer)], tries + 1;
      }
    }

    /** The UPDATE after a fatal error: the error column and no other. */
    method WriteError(h: HandlerId, body: Body)
      requires Valid() && body.Event? && Working(h, body, HasFatal) && body.id in keys
      modifies this
      ensures Valid() && trace == old(trace) + [Handle(h, PersistError)] && Working(h, body, Done)
      ensures ByHandler(trace, h) == ByHandler(old(trace), h) + [PersistError]
      ensures keys == old(keys)[body.id := old(keys)[body.id].(error := Some(Fatal))] && attempts == old(attempts)
    {
      hide HandleStep, CanHandle, HandlerLocal, Logged, HandlerOk;
      keys := keys[body.id := keys[body.id].(error := Some(Fatal))];
      PersistErrorIs(world, h);
      Step(h, PersistError);
    }

    /** The UPDATE after enrichment: payload and status and no other column. */
    method WritePayload(h: HandlerId, body: Body, payload: Payload)
      requires Valid() && body.Event? && Working(h, body, HasPayload(payload)) && body.id in keys
      modifies this
      ensures Valid() && trace == old(trace) + [Handle(h, Persist)] && Working(h, body, Done)
      ensures ByHandler(trace, h) == ByHandler(old(trace), h) + [Persist]
      ensures keys == old(keys)[body.id := old(keys)[body.id].(enriched := Some(payload), status := Enriched)]
      ensures attempts == old(attempts)
    {
      hide HandleStep, CanHandle, HandlerLocal, Logged, HandlerOk;
      keys := keys[body.id := keys[body.id].(enriched := Some(payload), status := Enriched)];
      PersistIs(world, h);
      Step(h, Persist);
    }

    method StoreError(h: HandlerId, body: Body)
      requires Valid() && body.Event? && Working(h, body, HasFatal)
      modifies this
      ensures Valid() && old(trace) <= trace && ByHandler(trace, h) == ByHandler(old(trace), h) + [PersistError]
      ensures Working(h, body, Done) && body.id in keys && keys[body.id].error == Some(Fatal)
    {
      hide HandleStep, CanHandle, HandlerLocal, Logged, HandlerOk;
      Await(HandlerMe(h));
      KeyIsThere(h, body);
      WriteError(h, body);
    }

    method StorePayload(h: HandlerId, body: Body, payload: Payload)
      requires Valid() && body.Event? && Working(h, body, HasPayload(payload))
      modifies this
      ensures Valid() && old(trace) <= trace && ByHandler(trace, h) == ByHandler(old(trace), h) + [Persist]
      ensures Working(h, body, Done) && body.id in keys
      ensures keys[body.id].enriched == Some(payload) && keys[body.id].status.Enriched?
    {
      hide HandleStep, CanHandle, HandlerLocal, Logged, HandlerOk;
      Await(HandlerMe(h));
      KeyIsThere(h, body);
      WritePayload(h, body, payload);
    }

    /** Stores the payload, or the fatal error; after transient errors, nothing. */
    method StoreAnswer(h: HandlerId, body: Body, ghost tries: nat, answer: Answer)
      requires Valid() && body.Event? && Working(h, body, AfterAnswer(body.payload, tries, answer))
      requires answer.TransientError? ==> tries == PROVIDER_TRIES
      modifies this
      ensures Valid() && old(trace) <= trace && ByHandler(trace, h) == ByHandler(old(trace), h) + Storing(answer)
      ensures Working(h, body, Done)
      ensures answer.Enrichment? ==>
        && body.id in keys && keys[body.id].status == Enriched
        && keys[body.id].enriched == Some(body.payload["_enrichment" := answer.value])
      ensures answer.FatalError? ==> body.id in keys && keys[body.id].error == Some(Fatal)
      ensures answer.TransientError? ==> trace == old(trace) && keys == old(keys)
    {
      hide Logged, ByHandler, BodyOf, Knows;
      match answer
      case TransientError =>
      case FatalError =>
        hasProvider := false;
        StoreError(h, body);
      case Enrichment(value) => StorePayload(h, body, Enrich(body.payload, value));
    }

    lemma KeyIsThere(h: HandlerId, body: Body)
      requires Valid() && Knows(world, h) && BodyOf(world, h) == body && PastGate(world.handlers[h].stage)
      ensures body.Event? && body.id in keys
    {
      HandlerIsOk(h);
    }

    /** From a fresh insert to the early acknowledgement. */
    method IngestMessage(h: HandlerId, body: Body, at: int) returns (count: nat, ghost order: seq<SubscriberId>)
      requires Valid() && body.Event? && Working(h, body, Inserted(at))
      modifies this
      ensures Valid() && old(trace) <= trace && Working(h, body, Enriching(0)) && count == |order|
      ensures ByHandler(trace, h) == ByHandler(old(trace), h) + [ListSubscribers(order), CommitInsert, Ack]
    {
      hide Logged, ByHandler, BodyOf, Knows;
      var added;
      count, added := CreateDeliveryAttempts(h, body, at);
      CommitInsertion(h, body, at, added);
      Acknowledge(h, body, Committed);
      order := added;
      ghost var before := ByHandler(old(trace), h);
      assert before + [ListSubscribers(order)] + [CommitInsert] + [Ack] == before + [ListSubscribers(order), CommitInsert, Ack];
    }

    /** From the early acknowledgement to the end. */
    method EnrichMessage(h: HandlerId, body: Body) returns (answer: Answer, ghost calls: seq<HandlerAction>)
      requires Valid() && body.Event? && Working(h, body, Enriching(0))
      modifies this
      ensures Valid() && old(trace) <= trace && Working(h, body, Done)
      ensures IsEnrichment(calls) && calls[|calls| - 1] == CallProvider(answer)
      ensures ByHandler(trace, h) == ByHandler(old(trace), h) + (calls + Storing(answer))
      ensures answer.Enrichment? ==>
        body.id in keys && keys[body.id].enriched == Some(body.payload["_enrichment" := answer.value])
      ensures answer.FatalError? ==> body.id in keys && keys[body.id].error == Some(Fatal)
    {
      hide Logged, ByHandler, BodyOf, Knows, Storing;
      hasProvider := true;
      answer, calls := EnrichWithRetry(h, body);
      StoreAnswer(h, body, |calls|, answer);
      ghost var before := ByHandler(old(trace), h);
      assert before + calls + Storing(answer) == before + (calls + Storing(answer));
    }

    /** Handles one message to the end: discards it, skips it as a duplicate, or ingests it and tries to enrich it.
        The steps come in this order and no other, so the acknowledgement of an ingested message follows its commit
        and precedes every provider call. */
    method HandleMessage(h: HandlerId, body: Body)
      returns (r: Handling, ghost order: seq<SubscriberId>, ghost calls: seq<HandlerAction>, ghost seen: seq<Event>)
      requires Valid() && Working(h, body, Fresh)
      modifies this
      ensures Valid() && old(trace) <= trace && Working(h, body, Done)
      ensures r.Discarded? <==> !body.Event?
      ensures body.Event? ==> InsertAfter(c, start, trace, h, body.id, seen, r.Skipped?)
      ensures r.Ingested? ==> r.attempts == |order| && IsEnrichment(calls) && calls[|calls| - 1] == CallProvider(r.answer)
      ensures r.Ingested? && r.answer.Enrichment? ==>
        body.id in keys && keys[body.id].enriched == Some(body.payload["_enrichment" := r.answer.value])
      ensures ByHandler(trace, h) == ByHandler(old(trace), h) + Script(r, order, calls)
    {
      hide Logged, ByHandler, BodyOf, Knows, IsEnrichment, Storing, InsertAfter;
      order, calls, seen := [], [], [];
      ghost var before := ByHandler(old(trace), h);
      if !body.Event? {
        Acknowledge(h, body, Fresh);
        return Discarded, order, calls, seen;
      }
      var inserted, at;
      inserted, at, seen := InsertIdempotencyKey(h, body);
      ghost var upTo := trace;
      if !inserted {
        Acknowledge(h, body, Duplicate);
        InsertStaysAfter(c, start, upTo, trace, h, body.id, seen, true);
        assert before + [Insert] + [Ack] == before + [Insert, Ack];
        return Skipped, order, calls, seen;
      }
      var count, answer;
      count, order := IngestMessage(h, body, at);
      answer, calls := EnrichMessage(h, body);
      InsertStaysAfter(c, start, upTo, trace, h, body.id, seen, false);
      assert before + [Insert] + [ListSubscribers(order), CommitInsert, Ack] + (calls + Storing(answer))
          == before + ([Insert, ListSubscribers(order), CommitInsert, Ack] + calls + Storing(answer));
      return Ingested(count, answer), order, calls, seen;
    }

    // ----- The reconciler

    /** Rows stuck in received since before the cutoff: any of them, as many as the limit allows. */
    method SelectStale(readAt: int) returns (stale: seq<MessageId>)
      requires Valid() && readAt <= clock
      ensures CanLoad(c, world, stale, readAt)
      ensures forall i :: 0 <= i < |stale| ==>
        stale[i] in keys && keys[stale[i]].status == Received && keys[stale[i]].receivedAt + c.staleAfter < readAt
      ensures |stale| == c.batchSize || forall id ::
        (id in keys && keys[id].status == Received && keys[id].receivedAt + c.staleAfter < readAt) ==> id in stale
    {
      var left := set id | id in keys && IsStale(c, keys[id], readAt);
      ghost var all := left;
      stale := [];
      while |stale| < c.batchSize && left != {}
        invariant CanLoad(c, world, stale, readAt) && left <= all
        invariant forall id :: id in all <==> id in left || id in stale
        invariant forall i :: 0 <= i < |stale| ==> stale[i] !in left
        decreases left
      {
        var id :| id in left;
        stale, left := stale + [id], left - {id};
      }
    }

    /** The cycle of q as the code holds it: the rows loaded, their counts and the pending changes. */
    ghost predicate Holding(q: ReconcilerId, y: Cycle)
      reads this
    {
      q in world.cycles && world.cycles[q] == y
    }

    method PublishOnce() returns (result: PublishResult, reached: bool)
      ensures result.Sent? ==> reached
    {
      result, reached :| result.Sent? ==> reached;
    }

    /** Logs a step of reconciler q. */
    ghost method CycleStep(q: ReconcilerId, a: CycleAction)
      requires Logged() && CanReconcile(c, world, q, a)
      modifies this`world, this`trace
      ensures Logged() && trace == old(trace) + [Reconcile(q, a)] && world == ReconcileStep(c, old(world), q, a)
      ensures ByReconciler(trace, q) == ByReconciler(old(trace), q) + [a]
    {
      hide ReconcileStep, CanReconcile, Logged;
      Log(Reconcile(q, a));
    }

    lemma RowIsThere(q: ReconcilerId, y: Cycle)
      requires Valid() && Holding(q, y) && y.pos < |y.batch|
      ensures AtRow(world, q) && RowAt(world, q) == y.batch[y.pos] && y.batch[y.pos] in y.counts
    {
      SafeRun(c, start, trace);
      assert CycleOk(c, world, world.cycles[q]);
    }

    method GiveUpRow(q: ReconcilerId, ghost y: Cycle, id: MessageId, count: nat, edits: map<MessageId, Edit>)
      returns (edits': map<MessageId, Edit>)
      requires Valid() && Holding(q, y) && y.pos < |y.batch| && y.batch[y.pos] == id
      requires id in y.counts && y.counts[id] == count && y.staged == edits && count >= c.maxReconciles
      modifies this
      ensures Valid() && old(trace) <= trace && old(clock) <= clock && ByReconciler(trace, q) == ByReconciler(old(trace), q) + [GiveUp]
      ensures edits' == edits[id := Abandon(count)] && Holding(q, y.(pos := y.pos + 1, staged := edits'))
    {
      hide ReconcileStep, CanReconcile, Logged, Apply, Enabled;
      RowIsThere(q, y);
      GiveUpIs(c, world, q);
      CycleStep(q, GiveUp);
      edits' := edits[id := Abandon(count)];
    }

    method PublishRow(q: ReconcilerId, ghost y: Cycle, id: MessageId, count: nat, edits: map<MessageId, Edit>)
      returns (result: PublishResult, edits': map<MessageId, Edit>, ghost a: CycleAction)
      requires Valid() && Holding(q, y) && y.pos < |y.batch| && y.batch[y.pos] == id
      requires id in y.counts && y.counts[id] == count && y.staged == edits && count < c.maxReconciles
      modifies this
      ensures Valid() && old(trace) <= trace && old(clock) <= clock && ByReconciler(trace, q) == ByReconciler(old(trace), q) + [a]
      ensures a.Publish? && a.result == result && edits' == if result.Sent? then edits[id := Bump(count + 1)] else edits
      ensures if result.Raised? then q !in world.cycles else Holding(q, y.(pos := y.pos + 1, staged := edits'))
    {
      hide ReconcileStep, CanReconcile, Logged, Apply, Enabled;
      Await(ReconcilerMe(q));
      var reached;
      result, reached := PublishOnce();
      RowIsThere(q, y);
      PublishIs(c, world, q, result, reached);
      a := Publish(result, reached);
      CycleStep(q, a);
      edits' := if result.Sent? then edits[id := Bump(count + 1)] else edits;
    }

    /** Deals with one loaded row: gives it up at the cap, otherwise publishes its message again. Only the pending
        changes are touched; a publish that raises ends the cycle. */
    method ReconcileRow(q: ReconcilerId, ghost y: Cycle, id: MessageId, count: nat, edits: map<MessageId, Edit>)
      returns (raised: bool, edits': map<MessageId, Edit>, ghost a: CycleAction)
      requires Valid() && Holding(q, y) && y.pos < |y.batch| && y.batch[y.pos] == id
      requires id in y.counts && y.counts[id] == count && y.staged == edits
      modifies this
      ensures Valid() && old(trace) <= trace && old(clock) <= clock && ByReconciler(trace, q) == ByReconciler(old(trace), q) + [a]
      ensures raised ==> q !in world.cycles
      ensures !raised ==> Holding(q, y.(pos := y.pos + 1, staged := edits'))
      ensures a.GiveUp? <==> count >= c.maxReconciles
      ensures a.GiveUp? || a.Publish?
      ensures edits' == EditsAfter(edits, id, count, a) && (raised <==> Raises(a))
    {
      hide Logged, ByReconciler;
      if count >= c.maxReconciles {
        edits' := GiveUpRow(q, y, id, count, edits);
        raised, a := false, GiveUp;
      } else {
        var result;
        result, edits', a := PublishRow(q, y, id, count, edits);
        raised := result.Raised?;
      }
    }

    /** Commits the pending changes, each written over whatever the row holds by now; no other row changes. */
    method CommitEdits(q: ReconcilerId, ghost y: Cycle, edits: map<MessageId, Edit>)
      requires Valid() && Holding(q, y) && y.pos == |y.batch| && y.staged == edits
      modifies this
      ensures Valid() && clock == old(clock) && trace == old(trace) + [Reconcile(q, CommitCycle)] && q !in world.cycles
      ensures ByReconciler(trace, q) == ByReconciler(old(trace), q) + [CommitCycle]
      ensures keys == Flush(old(keys), edits) && keys.Keys == old(keys).Keys
      ensures forall id :: id in keys && id !in edits ==> keys[id] == old(keys)[id]
      ensures forall id :: id in keys && id in edits && edits[id].Bump? ==>
        keys[id] == old(keys)[id].(reconcileCount := edits[id].count)
      ensures forall id :: id in keys && id in edits && edits[id].Abandon? ==>
        keys[id] == old(keys)[id].(status := Abandoned, error := Some(GaveUp(edits[id].cycles)))
      ensures forall i :: 0 <= i < |y.batch| ==> y.batch[i] in keys
      ensures forall id :: id in edits ==> id in keys && EditStored(keys[id], edits[id])
    {
      hide ReconcileStep, CanReconcile, Logged, Apply, Enabled;
      RowsAreThere(q, y);
      keys := Flush(keys, edits);
      CommitCycleIs(c, world, q);
      CycleStep(q, CommitCycle);
    }

    lemma RowsAreThere(q: ReconcilerId, y: Cycle)
      requires Valid() && Holding(q, y)
      ensures forall i :: 0 <= i < |y.batch| ==> y.batch[i] in keys
      ensures forall id :: id in y.staged ==> id in keys
    {
      SafeRun(c, start, trace);
      assert CycleOk(c, world, world.cycles[q]);
      forall id | id in y.staged ensures id in keys { assert EditOk(c, world, id, y.staged[id]); }
    }

    /** Reads the clock, then loads: as many rows as the limit allows of those received before the cutoff, with the
        counts they have. `loaded` is the table at the load. */
    method BeginCycle(q: ReconcilerId)
      returns (stale: seq<MessageId>, counts: map<MessageId, nat>, ghost loaded: map<MessageId, Key>, ghost readAt: int)
      requires Valid() && q !in world.cycles
      modifies this
      ensures Valid() && old(trace) <= trace && Holding(q, Cycle(stale, counts, 0, map[]))
      ensures |stale| <= c.batchSize && NoDuplicates(stale) && readAt <= clock && LoadedStale(c, stale, counts, loaded, readAt)
      ensures ByReconciler(trace, q) == ByReconciler(old(trace), q)
    {
      hide Logged, ReconcileStep, CanReconcile, NoDuplicates;
      Await(ReconcilerMe(q));
      var now := clock;
      readAt := now;
      Await(ReconcilerMe(q));
      stale := SelectStale(now);
      counts := CountsOf(keys, stale);
      loaded := keys;
      Log(LoadStale(q, stale, now));
    }

    /** Deals with the loaded rows in turn. Stops at the first publish that raises. */
    method DealWithRows(q: ReconcilerId, stale: seq<MessageId>, counts: map<MessageId, nat>)
      returns (raised: bool, edits: map<MessageId, Edit>, ghost steps: seq<CycleAction>)
      requires Valid() && Holding(q, Cycle(stale, counts, 0, map[]))
      requires NoDuplicates(stale) && (forall i :: 0 <= i < |stale| ==> stale[i] in counts)
      modifies this
      ensures Valid() && old(trace) <= trace && old(clock) <= clock && ByReconciler(trace, q) == ByReconciler(old(trace), q) + steps
      ensures CommitCycle !in steps && (forall id :: id in edits ==> id in stale)
      ensures raised ==> q !in world.cycles && 0 < |steps| <= |stale| && Raises(steps[|steps| - 1])
      ensures !raised ==> Holding(q, Cycle(stale, counts, |stale|, edits)) && DealtWith(c, stale, counts, steps, edits)
    {
      hide Logged, ByReconciler, ReconcileStep, CanReconcile, DealtWith, EditsAfter;
      raised, edits, steps := false, map[], [];
      assert DealtWith(c, stale[..0], counts, steps, edits) by { NoneDealtWith(c, counts); }
      ghost var before := ByReconciler(trace, q);
      var pos := 0;
      while pos < |stale|
        invariant Valid() && old(trace) <= trace && old(clock) <= clock && 0 <= pos <= |stale| && |steps| == pos
        invariant Holding(q, Cycle(stale, counts, pos, edits))
        invariant ByReconciler(trace, q) == before + steps && CommitCycle !in steps
        invariant DealtWith(c, stale[..pos], counts, steps, edits)
        invariant forall id :: id in edits ==> id in stale[..pos]
      {
        ghost var y := Cycle(stale, counts, pos, edits);
        var id := stale[pos];
        assert stale[..pos + 1] == stale[..pos] + [id];
        var edits';
        ghost var a;
        raised, edits', a := ReconcileRow(q, y, id, counts[id], edits);
        if raised { return true, edits, steps + [a]; }
        OneMoreDealtWith(c, stale[..pos], counts, steps, edits, id, a);
        steps, edits, pos := steps + [a], edits', pos + 1;
      }
      assert stale[..pos] == stale;
    }

    /** One cycle: load, deal with the rows in turn, commit what is pending. A committed cycle writes exactly the
        pending changes of its rows over the table as it is then: none for a row whose publish timed out. When a publish
        raises, the cycle ends without a commit, though what it published stays published. */
    method ReconcileOnce(q: ReconcilerId)
      returns (committed: bool, stale: seq<MessageId>, counts: map<MessageId, nat>, ghost steps: seq<CycleAction>,
               ghost edits: map<MessageId, Edit>, ghost before: map<MessageId, Key>, ghost loaded: map<MessageId, Key>, ghost readAt: int)
      requires Valid() && q !in world.cycles
      modifies this
      ensures Valid() && old(trace) <= trace && q !in world.cycles
      ensures |stale| <= c.batchSize && NoDuplicates(stale) && readAt <= clock && LoadedStale(c, stale, counts, loaded, readAt)
      ensures ByReconciler(trace, q) == ByReconciler(old(trace), q) + steps + if committed then [CommitCycle] else []
      ensures CommitCycle !in steps && (forall id :: id in edits ==> id in stale)
      ensures committed ==> DealtWith(c, stale, counts, steps, edits) && keys.Keys == before.Keys
      ensures committed ==> forall i :: 0 <= i < |stale| ==> stale[i] in keys
      ensures committed ==> forall id :: id in keys && id !in edits ==> keys[id] == before[id]
      ensures committed ==> forall id :: id in keys && id in edits && edits[id].Bump? ==>
        keys[id] == before[id].(reconcileCount := edits[id].count)
      ensures committed ==> forall id :: id in keys && id in edits && edits[id].Abandon? ==>
        keys[id] == before[id].(status := Abandoned, error := Some(GaveUp(edits[id].cycles)))
      ensures !committed ==> 0 < |steps| <= |stale| && Raises(steps[|steps| - 1])
    {
      hide Logged, ByReconciler, ReconcileStep, CanReconcile, DealtWith, Flush, NoDuplicates;
      before := map[];
      stale, counts, loaded, readAt := BeginCycle(q);
      assert forall i :: 0 <= i < |stale| ==> stale[i] in counts;
      hide LoadedStale;
      var raised, pending;
      raised, pending, steps := DealWithRows(q, stale, counts);
      edits := pending;
      if raised { return false, stale, counts, steps, edits, before, loaded, readAt; }
      Await(ReconcilerMe(q));
      before := keys;
      RowsAreThere(q, Cycle(stale, counts, |stale|, pending));
      CommitEdits(q, Cycle(stale, counts, |stale|, pending), pending);
      committed := true;
    }
  }
}
