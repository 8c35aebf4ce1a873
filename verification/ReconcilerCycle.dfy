/** What one cycle of a reconciler does when its publishes all succeed and no other reconciler is at work. */
module ReconcilerCycle {
  import opened Types
  import opened Ingest
  import opened IngestSafety
  import opened IngestTheorems

  // ----- What a cycle comes to

  function EditFor(c: Config, count: nat): Edit {
    if count >= c.maxReconciles then Abandon(count) else Bump(count + 1)
  }

  /** What a cycle without failures makes of one stale key: one more re-enqueue, or the end of the line. */
  function SettleKey(c: Config, k: Key): Key {
    ChangeKey(k, EditFor(c, k.reconcileCount))
  }

  function Settle(c: Config, keys: map<MessageId, Key>, picked: seq<MessageId>): map<MessageId, Key> {
    map id | id in keys :: if id in picked then SettleKey(c, keys[id]) else keys[id]
  }

  function StepFor(c: Config, s: State, q: ReconcilerId): CycleAction
    requires AtRow(s, q)
  {
    if s.cycles[q].counts[RowAt(s, q)] >= c.maxReconciles then GiveUp else Publish(Sent, true)
  }

  /** A cycle that has dealt with its first rows as Settle does, on a table that has not changed since it loaded. */
  ghost predicate SettlingCycle(c: Config, keys: map<MessageId, Key>, y: Cycle, ids: seq<MessageId>) {
    && y.batch == ids && y.pos <= |ids| && NoDuplicates(ids)
    && (forall i :: 0 <= i < |ids| ==> ids[i] in keys && ids[i] in y.counts)
    && (forall id :: id in y.counts ==> id in keys && y.counts[id] == keys[id].reconcileCount)
    && (forall id :: id in y.staged <==> id in ids[..y.pos])
    && (forall id :: id in y.staged ==> id in keys && y.staged[id] == EditFor(c, keys[id].reconcileCount))
  }

  ghost predicate Settling(c: Config, s: State, q: ReconcilerId, ids: seq<MessageId>) {
    q in s.cycles && SettlingCycle(c, s.keys, s.cycles[q], ids)
  }

  lemma CycleAdvances(c: Config, keys: map<MessageId, Key>, y: Cycle, ids: seq<MessageId>)
    requires SettlingCycle(c, keys, y, ids) && y.pos < |ids|
    ensures y.batch[y.pos] in y.counts
    ensures SettlingCycle(c, keys,
      y.(pos := y.pos + 1, staged := y.staged[y.batch[y.pos] := EditFor(c, y.counts[y.batch[y.pos]])]), ids)
  {
    assert ids[..y.pos + 1] == ids[..y.pos] + [ids[y.pos]];
  }

  function Advanced(c: Config, y: Cycle, id: MessageId): Cycle
    requires id in y.counts
  {
    y.(pos := y.pos + 1, staged := y.staged[id := EditFor(c, y.counts[id])])
  }

  lemma GiveUpAdvances(c: Config, s: State, q: ReconcilerId)
    requires AtRow(s, q) && s.cycles[q].counts[RowAt(s, q)] >= c.maxReconciles
    ensures CanReconcile(c, s, q, GiveUp) && ReconcileStep(c, s, q, GiveUp).keys == s.keys
    ensures ReconcileStep(c, s, q, GiveUp).cycles == s.cycles[q := Advanced(c, s.cycles[q], RowAt(s, q))]
  {
  }

  lemma PublishAdvances(c: Config, s: State, q: ReconcilerId)
    requires AtRow(s, q) && s.cycles[q].counts[RowAt(s, q)] < c.maxReconciles
    ensures CanReconcile(c, s, q, Publish(Sent, true))
    ensures ReconcileStep(c, s, q, Publish(Sent, true)).keys == s.keys
    ensures ReconcileStep(c, s, q, Publish(Sent, true)).clock == s.clock
    ensures ReconcileStep(c, s, q, Publish(Sent, true)).cycles == s.cycles[q := Advanced(c, s.cycles[q], RowAt(s, q))]
  {
  }

  lemma SettlingStep(c: Config, s: State, q: ReconcilerId, ids: seq<MessageId>)
    requires Settling(c, s, q, ids) && s.cycles[q].pos < |ids|
    ensures AtRow(s, q) && CanReconcile(c, s, q, StepFor(c, s, q))
    ensures var t := ReconcileStep(c, s, q, StepFor(c, s, q));
      Settling(c, t, q, ids) && t.cycles[q].pos == s.cycles[q].pos + 1 && t.keys == s.keys
  {
    assert ids[s.cycles[q].pos] in s.keys && AtRow(s, q);
    CycleAdvances(c, s.keys, s.cycles[q], ids);
    hide SettlingCycle, ReconcileStep, CanReconcile;
    if s.cycles[q].counts[RowAt(s, q)] >= c.maxReconciles {
      GiveUpAdvances(c, s, q);
    } else {
      PublishAdvances(c, s, q);
    }
  }

  lemma SettledCommit(c: Config, s: State, q: ReconcilerId, ids: seq<MessageId>)
    requires Settling(c, s, q, ids) && s.cycles[q].pos == |ids|
    ensures CanReconcile(c, s, q, CommitCycle)
    ensures ReconcileStep(c, s, q, CommitCycle).keys == Settle(c, s.keys, ids)
  {
    assert ids[..|ids|] == ids;
  }

  /** The cycle of q goes on with every publish succeeding, no other cycle starts, and handlers, publishers
      and the broker do as they like. */
  ghost predicate IsCleanRun(c: Config, s: State, es: seq<Event>, q: ReconcilerId)
    decreases |es|
  {
    es == [] ||
    (Enabled(c, s, es[0]) && Clean(es[0], q) && IsCleanRun(c, Apply(c, s, es[0]), es[1..], q))
  }

  predicate Clean(e: Event, q: ReconcilerId) {
    !e.LoadStale? && (e.Reconcile? ==> e.q == q && (e.step.GiveUp? || e.step == Publish(Sent, true)))
  }

  lemma SettlingKept(c: Config, s: State, s': State, q: ReconcilerId, ids: seq<MessageId>)
    requires Settling(c, s, q, ids) && s'.cycles == s.cycles
    requires forall id :: id in s.keys ==> id in s'.keys && s'.keys[id].reconcileCount == s.keys[id].reconcileCount
    ensures Settling(c, s', q, ids)
  {
  }

  lemma CleanStep(c: Config, s: State, e: Event, q: ReconcilerId, ids: seq<MessageId>)
    requires Safe(c, s) && Settling(c, s, q, ids) && s.cycles.Keys == {q} && Enabled(c, s, e) && Clean(e, q)
    ensures Settling(c, Apply(c, s, e), q, ids) && Apply(c, s, e).cycles.Keys == {q}
  {
    hide CanHandle, HandleStep, CanReconcile, ReconcileStep, SettlingCycle, Safe;
    match e
    case Handle(h, a) =>
      MayAssume(c, s, h, a);
      CountsStay(s, h, a);
      SettlingKept(c, s, Apply(c, s, e), q, ids);
    case Reconcile(_, step) =>
      InProgress(c, s, q, ids, step);
      SettlingStep(c, s, q, ids);
      assert RowAt(s, q) in s.cycles[q].counts;
      if step.GiveUp? { GiveUpAdvances(c, s, q); } else { PublishAdvances(c, s, q); }
    case LoadStale(_, _, _) =>
    case _ =>
      SettlingKept(c, s, Apply(c, s, e), q, ids);
  }

  lemma InProgress(c: Config, s: State, q: ReconcilerId, ids: seq<MessageId>, a: CycleAction)
    requires CanReconcile(c, s, q, a) && Settling(c, s, q, ids) && (a.GiveUp? || a == Publish(Sent, true))
    ensures s.cycles[q].pos < |ids| && AtRow(s, q) && a == StepFor(c, s, q)
    ensures if a.GiveUp? then s.cycles[q].counts[RowAt(s, q)] >= c.maxReconciles
            else s.cycles[q].counts[RowAt(s, q)] < c.maxReconciles
  {
  }

  lemma {:induction false} CleanRunSettles(c: Config, s: State, es: seq<Event>, q: ReconcilerId, ids: seq<MessageId>)
    requires Safe(c, s) && Settling(c, s, q, ids) && s.cycles.Keys == {q} && IsCleanRun(c, s, es, q)
    ensures IsRun(c, s, es) && Settling(c, After(c, s, es), q, ids) && After(c, s, es).cycles.Keys == {q}
    decreases |es|
  {
    hide Enabled, Apply, Safe, Settling, Clean;
    if es != [] {
      CleanStep(c, s, es[0], q, ids);
      SafeStep(c, s, es[0]);
      CleanRunSettles(c, Apply(c, s, es[0]), es[1..], q, ids);
    }
  }

  /** The state after reconciler q's load of `ids`. */
  function Loaded(c: Config, s: State, q: ReconcilerId, ids: seq<MessageId>, readAt: int): State
    requires Enabled(c, s, LoadStale(q, ids, readAt))
  {
    Apply(c, s, LoadStale(q, ids, readAt))
  }

  /** Whatever handlers do while a cycle is in progress, if its publishes all succeed and no other reconciler is at
      work, its commit settles exactly the rows it loaded, as they are by then. */
  lemma SucceedingCycleSettles(c: Config, s: State, q: ReconcilerId, ids: seq<MessageId>, readAt: int, fs: seq<Event>)
    requires Safe(c, s) && s.cycles == map[] && CanLoad(c, s, ids, readAt)
    requires IsCleanRun(c, Loaded(c, s, q, ids, readAt), fs, q) && IsRun(c, Loaded(c, s, q, ids, readAt), fs)
    requires CanReconcile(c, After(c, Loaded(c, s, q, ids, readAt), fs), q, CommitCycle)
    ensures var t := After(c, Loaded(c, s, q, ids, readAt), fs);
      var t' := ReconcileStep(c, t, q, CommitCycle);
      && t'.keys == Settle(c, t.keys, ids) && t'.cycles == map[] && t'.handlers == t.handlers && t'.bodies == t.bodies
      && Safe(c, t) && Safe(c, t')
  {
    hide IsRun, After, Safe;
    var e := LoadStale(q, ids, readAt);
    SafeStep(c, s, e);
    var l := Apply(c, s, e);
    assert Settling(c, l, q, ids);
    CleanRunSettles(c, l, fs, q, ids);
    var t := After(c, l, fs);
    SettledCommit(c, t, q, ids);
    SafeRun(c, l, fs);
    SafeStep(c, t, Reconcile(q, CommitCycle));
    assert t.cycles - {q} == map[];
  }

  /** A cycle in progress can always be left alone until it commits. */
  lemma {:induction false} CycleCanFinish(c: Config, s: State, q: ReconcilerId, ids: seq<MessageId>) returns (es: seq<Event>)
    requires Settling(c, s, q, ids)
    ensures IsRun(c, s, es) && IsCleanRun(c, s, es, q) && CanReconcile(c, After(c, s, es), q, CommitCycle)
    ensures After(c, s, es).keys == s.keys
    decreases |ids| - s.cycles[q].pos
  {
    hide CanReconcile, ReconcileStep, Settling;
    if StillDealing(c, s, q, ids) {
      SettlingStep(c, s, q, ids);
      var e := Reconcile(q, StepFor(c, s, q));
      var rest := CycleCanFinish(c, Apply(c, s, e), q, ids);
      RunPrepends(c, s, e, rest);
      es := [e] + rest;
      assert es[1..] == rest;
    } else {
      NoneLeft(c, s, q, ids);
      SettledCommit(c, s, q, ids);
      es := [];
    }
  }

  lemma NoneLeft(c: Config, s: State, q: ReconcilerId, ids: seq<MessageId>)
    requires Settling(c, s, q, ids) && !StillDealing(c, s, q, ids)
    ensures s.cycles[q].pos == |ids|
  {
  }

  ghost predicate StillDealing(c: Config, s: State, q: ReconcilerId, ids: seq<MessageId>)
    requires Settling(c, s, q, ids)
  {
    s.cycles[q].pos < |ids|
  }

  /** Left alone, a cycle whose publishes all succeed settles exactly the rows it loaded. */
  lemma UndisturbedCycleSettles(c: Config, s: State, q: ReconcilerId, ids: seq<MessageId>, readAt: int) returns (es: seq<Event>)
    requires Safe(c, s) && s.cycles == map[] && CanLoad(c, s, ids, readAt)
    ensures IsRun(c, Loaded(c, s, q, ids, readAt), es) && IsCleanRun(c, Loaded(c, s, q, ids, readAt), es, q)
    ensures CanReconcile(c, After(c, Loaded(c, s, q, ids, readAt), es), q, CommitCycle)
    ensures ReconcileStep(c, After(c, Loaded(c, s, q, ids, readAt), es), q, CommitCycle).keys == Settle(c, s.keys, ids)
  {
    hide IsRun, IsCleanRun, After, CanReconcile, ReconcileStep, Safe;
    var l := Loaded(c, s, q, ids, readAt);
    assert Settling(c, l, q, ids);
    es := CycleCanFinish(c, l, q, ids);
    SucceedingCycleSettles(c, s, q, ids, readAt, es);
  }
}
