/** What any number of reconcilers can do to a stored reconcile_count: it goes down exactly when two snapshots of the
    same key can be two below the cap. */
module ReconcilerCounts {
  import opened Types
  import opened Ingest
  import opened IngestSafety
  import opened IngestTheorems
  import opened ReconcilerCycle

  // ----- Two reconcilers

  /** The cycle of q has loaded `id` alone, `n` re-enqueues old, and `pos` of its rows are done. */
  ghost predicate OnOne(c: Config, s: State, q: ReconcilerId, id: MessageId, n: nat, pos: nat) {
    && q in s.cycles && id in s.keys && n < c.maxReconciles && pos <= 1
    && s.cycles[q] == Cycle([id], map[id := n], pos, if pos == 0 then map[] else map[id := Bump(n + 1)])
  }

  lemma LoadOne(c: Config, s: State, q: ReconcilerId, id: MessageId, readAt: int)
    requires q !in s.cycles && CanLoad(c, s, [id], readAt) && id in s.keys && s.keys[id].reconcileCount < c.maxReconciles
    ensures Enabled(c, s, LoadStale(q, [id], readAt))
    ensures var t := Apply(c, s, LoadStale(q, [id], readAt));
      && OnOne(c, t, q, id, s.keys[id].reconcileCount, 0)
      && t.keys == s.keys && t.clock == s.clock && t.cycles - {q} == s.cycles
  {
    var t := Apply(c, s, LoadStale(q, [id], readAt));
    assert t.cycles[q].counts == map[id := s.keys[id].reconcileCount];
    assert t.cycles - {q} == s.cycles;
  }

  lemma PublishOne(c: Config, s: State, q: ReconcilerId, id: MessageId, n: nat)
    requires OnOne(c, s, q, id, n, 0)
    ensures Enabled(c, s, Reconcile(q, Publish(Sent, true)))
    ensures var t := Apply(c, s, Reconcile(q, Publish(Sent, true)));
      OnOne(c, t, q, id, n, 1) && t.keys == s.keys && t.clock == s.clock && t.cycles - {q} == s.cycles - {q}
  {
    hide ReconcileStep, CanReconcile;
    assert AtRow(s, q) && RowAt(s, q) == id;
    PublishAdvances(c, s, q);
    var t := Apply(c, s, Reconcile(q, Publish(Sent, true)));
    assert t.cycles - {q} == s.cycles - {q};
  }

  lemma CommitOne(c: Config, s: State, q: ReconcilerId, id: MessageId, n: nat)
    requires OnOne(c, s, q, id, n, 1)
    ensures Enabled(c, s, Reconcile(q, CommitCycle))
    ensures var t := Apply(c, s, Reconcile(q, CommitCycle));
      t.keys == s.keys[id := s.keys[id].(reconcileCount := n + 1)] && t.clock == s.clock && t.cycles == s.cycles - {q}
  {
    assert Flush(s.keys, s.cycles[q].staged) == s.keys[id := s.keys[id].(reconcileCount := n + 1)];
  }

  lemma CycleOnOne(c: Config, s: State, q: ReconcilerId, id: MessageId, readAt: int) returns (es: seq<Event>)
    requires q !in s.cycles && CanLoad(c, s, [id], readAt) && id in s.keys && s.keys[id].reconcileCount < c.maxReconciles
    ensures IsRun(c, s, es)
    ensures var t := After(c, s, es);
      && t.cycles == s.cycles && t.clock == s.clock
      && t.keys == s.keys[id := s.keys[id].(reconcileCount := s.keys[id].reconcileCount + 1)]
  {
    hide IsRun, After, Enabled, Apply, OnOne;
    var n := s.keys[id].reconcileCount;
    var load, publish, commit := LoadStale(q, [id], readAt), Reconcile(q, Publish(Sent, true)), Reconcile(q, CommitCycle);
    LoadOne(c, s, q, id, readAt);
    var s1 := Apply(c, s, load);
    PublishOne(c, s1, q, id, n);
    var s2 := Apply(c, s1, publish);
    CommitOne(c, s2, q, id, n);
    RunOfOne(c, s2, commit);
    RunPrepends(c, s1, publish, [commit]);
    RunPrepends(c, s, load, [publish] + [commit]);
    es := [load] + ([publish] + [commit]);
  }

  /** Two reconcilers can lower a stored count: one that commits late writes the value of its old snapshot. */
  lemma TwoReconcilersCanLowerACount(c: Config, s: State, p: ReconcilerId, q: ReconcilerId, id: MessageId, readAt: int)
    returns (es: seq<Event>, fs: seq<Event>)
    requires p != q && p !in s.cycles && q !in s.cycles && c.batchSize > 0 && readAt <= s.clock
    requires id in s.keys && IsStale(c, s.keys[id], readAt) && s.keys[id].reconcileCount + 2 <= c.maxReconciles
    ensures IsRun(c, s, es) && IsRun(c, After(c, s, es), fs)
    ensures id in After(c, s, es).keys && id in After(c, After(c, s, es), fs).keys
    ensures After(c, After(c, s, es), fs).keys[id].reconcileCount < After(c, s, es).keys[id].reconcileCount
  {
    hide IsRun, After, Enabled, Apply, OnOne;
    var n := s.keys[id].reconcileCount;
    var load := LoadStale(q, [id], readAt);
    assert CanLoad(c, s, [id], readAt);
    LoadOne(c, s, q, id, readAt);
    var s1 := Apply(c, s, load);
    var first := CycleOnOne(c, s1, p, id, readAt);
    var s2 := After(c, s1, first);
    var second := CycleOnOne(c, s2, p, id, readAt);
    var s3 := After(c, s2, second);
    RunsCompose(c, s1, first, second);
    RunPrepends(c, s, load, first + second);
    es := [load] + (first + second);
    assert OnOne(c, s3, q, id, n, 0) by { StillOnOne(c, s1, s3, q, id, n); }
    var publish, commit := Reconcile(q, Publish(Sent, true)), Reconcile(q, CommitCycle);
    PublishOne(c, s3, q, id, n);
    var s4 := Apply(c, s3, publish);
    CommitOne(c, s4, q, id, n);
    RunOfOne(c, s4, commit);
    RunPrepends(c, s3, publish, [commit]);
    fs := [publish] + [commit];
  }

  lemma StillOnOne(c: Config, s: State, s': State, q: ReconcilerId, id: MessageId, n: nat)
    requires OnOne(c, s, q, id, n, 0) && s'.cycles == s.cycles && s'.keys.Keys == s.keys.Keys
    ensures OnOne(c, s', q, id, n, 0)
  {
  }

  // ----- When a count cannot go down

  /** Nobody holds the key, and nobody will load it again. */
  ghost predicate LeftAlone(s: State, id: MessageId)
    requires id in s.keys
  {
    !s.keys[id].status.Received? && forall q :: q in s.cycles ==> id !in s.cycles[q].counts && id !in s.cycles[q].staged
  }

  /** The next re-enqueue of the key is its last, for whoever holds it. */
  ghost predicate NearCap(c: Config, s: State, id: MessageId)
    requires id in s.keys
  {
    && s.keys[id].reconcileCount + 1 >= c.maxReconciles
    && forall q :: q in s.cycles ==> HeldNearCap(c, s.cycles[q], id)
  }

  ghost predicate HeldNearCap(c: Config, y: Cycle, id: MessageId) {
    && (id in y.counts ==> y.counts[id] + 1 >= c.maxReconciles)
    && (id in y.staged && y.staged[id].Bump? ==> y.staged[id].count == c.maxReconciles)
  }

  ghost predicate Steady(c: Config, s: State, id: MessageId) {
    id in s.keys && (LeftAlone(s, id) || NearCap(c, s, id))
  }

  lemma SteadyHandled(c: Config, s: State, h: HandlerId, a: HandlerAction, id: MessageId)
    requires Safe(c, s) && Steady(c, s, id) && CanHandle(s, h, a)
    ensures var s' := HandleStep(s, h, a);
      Steady(c, s', id) && s'.keys[id].reconcileCount >= s.keys[id].reconcileCount
  {
    hide HandlerLocal, Keys, Gate, Locks, Cycles, Broker, Acks, Requeues;
    assert h in s.handlers ==> HandlerOk(s, h);
  }

  lemma SteadyCommit(c: Config, s: State, q: ReconcilerId, id: MessageId)
    requires Safe(c, s) && Steady(c, s, id) && CanReconcile(c, s, q, CommitCycle)
    ensures var s' := ReconcileStep(c, s, q, CommitCycle);
      Steady(c, s', id) && s'.keys[id].reconcileCount >= s.keys[id].reconcileCount
  {
    hide Handlers, Gate, Locks, Cycles, Broker, Acks, Requeues;
    assert KeyOk(c, s, id);
    hide KeyOk;
    CommitCycleIs(c, s, q);
  }

  /** What a step before the commit does to a cycle: it may stage one change of a key it holds. */
  ghost predicate Advances(c: Config, y: Cycle, y': Cycle) {
    && y'.counts == y.counts
    && forall x :: x in y'.staged ==>
         || (x in y.staged && y'.staged[x] == y.staged[x])
         || (x in y.counts && (y'.staged[x].Bump? ==> y'.staged[x].count == y.counts[x] + 1 <= c.maxReconciles))
  }

  lemma SteadyAdvance(c: Config, s: State, s': State, q: ReconcilerId, id: MessageId)
    requires Steady(c, s, id) && s'.keys == s.keys && q in s.cycles
    requires forall p :: p in s'.cycles ==> p in s.cycles && if p == q then Advances(c, s.cycles[q], s'.cycles[q]) else s'.cycles[p] == s.cycles[p]
    ensures Steady(c, s', id)
  {
  }

  lemma AdvancesBy(c: Config, s: State, q: ReconcilerId, a: CycleAction)
    requires CanReconcile(c, s, q, a) && !a.CommitCycle?
    ensures var s' := ReconcileStep(c, s, q, a);
      && q in s.cycles && s'.keys == s.keys
      && forall p :: p in s'.cycles ==> p in s.cycles && if p == q then Advances(c, s.cycles[q], s'.cycles[q]) else s'.cycles[p] == s.cycles[p]
  {
  }

  lemma SteadyReconciled(c: Config, s: State, q: ReconcilerId, a: CycleAction, id: MessageId)
    requires Safe(c, s) && Steady(c, s, id) && CanReconcile(c, s, q, a)
    ensures var s' := ReconcileStep(c, s, q, a);
      Steady(c, s', id) && s'.keys[id].reconcileCount >= s.keys[id].reconcileCount
  {
    if a.CommitCycle? {
      SteadyCommit(c, s, q, id);
    } else {
      AdvancesBy(c, s, q, a);
      hide Safe, ReconcileStep, CanReconcile;
      SteadyAdvance(c, s, ReconcileStep(c, s, q, a), q, id);
    }
  }

  lemma SteadyHappened(c: Config, s: State, e: Event, id: MessageId)
    requires !e.Handle? && !e.Reconcile? && Steady(c, s, id) && CanHappen(c, s, e)
    ensures var s' := Happen(c, s, e);
      Steady(c, s', id) && s'.keys[id].reconcileCount >= s.keys[id].reconcileCount
  {
  }

  lemma {:induction false} SteadyRun(c: Config, s: State, es: seq<Event>, id: MessageId)
    requires Safe(c, s) && Steady(c, s, id) && IsRun(c, s, es)
    ensures Safe(c, After(c, s, es)) && Steady(c, After(c, s, es), id)
    ensures After(c, s, es).keys[id].reconcileCount >= s.keys[id].reconcileCount
    decreases |es|
  {
    hide CanHandle, HandleStep, CanReconcile, ReconcileStep, CanHappen, Happen, Safe, Steady;
    if es != [] {
      var e := es[0];
      match e {
        case Handle(h, a) => SteadyHandled(c, s, h, a, id);
        case Reconcile(q, a) => SteadyReconciled(c, s, q, a, id);
        case _ => SteadyHappened(c, s, e, id);
      }
      SafeStep(c, s, e);
      SteadyRun(c, Apply(c, s, e), es[1..], id);
    }
  }

  /** Along `fs`, which follows `es`, the stored count of `id` goes down. */
  ghost predicate Lowers(c: Config, s: State, es: seq<Event>, fs: seq<Event>, id: MessageId) {
    && IsRun(c, s, es) && IsRun(c, After(c, s, es), fs)
    && id in After(c, s, es).keys && id in After(c, After(c, s, es), fs).keys
    && After(c, After(c, s, es), fs).keys[id].reconcileCount < After(c, s, es).keys[id].reconcileCount
  }

  lemma TickIs(c: Config, s: State, d: nat)
    ensures Enabled(c, s, Tick(d)) && Apply(c, s, Tick(d)) == s.(clock := s.clock + d)
  {
  }

  lemma AgedByTicking(c: Config, k: Key, clock: int) returns (d: nat)
    requires k.status.Received?
    ensures IsStale(c, k, clock + d)
  {
    var wait := k.receivedAt + c.staleAfter + 1 - clock;
    d := if wait > 0 then wait else 0;
  }

  /** Exactly when a count can go down: between cycles, some run of handlers and reconcilers lowers the stored count of
      a key if and only if the key is still received and two below the cap. */
  lemma CountCanDropIff(c: Config, s0: State, es0: seq<Event>, id: MessageId)
    requires Reached(c, s0, es0) && c.batchSize > 0
    requires After(c, s0, es0).cycles == map[] && id in After(c, s0, es0).keys
    ensures var s := After(c, s0, es0);
      (exists es, fs :: Lowers(c, s, es, fs, id)) <==>
        s.keys[id].status.Received? && s.keys[id].reconcileCount + 2 <= c.maxReconciles
  {
    hide IsRun, After, Enabled, Apply, Safe;
    var s := After(c, s0, es0);
    ReachedIsSafe(c, s0, es0);
    if s.keys[id].status.Received? && s.keys[id].reconcileCount + 2 <= c.maxReconciles {
      var d := AgedByTicking(c, s.keys[id], s.clock);
      var e := Tick(d);
      TickIs(c, s, d);
      var t := Apply(c, s, e);
      var es, fs := TwoReconcilersCanLowerACount(c, t, 0, 1, id, t.clock);
      RunPrepends(c, s, e, es);
      assert Lowers(c, s, [e] + es, fs, id);
    } else {
      assert Steady(c, s, id);
      forall es, fs ensures !Lowers(c, s, es, fs, id) {
        if Lowers(c, s, es, fs, id) {
          SteadyRun(c, s, es, id);
          SteadyRun(c, After(c, s, es), fs, id);
        }
      }
    }
  }
}
