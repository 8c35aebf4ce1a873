/** What holds of the delivery machine when batches keep to their schedule: a claim commits within
    `overhead` of the clock reading it started from, and each attempt takes at most `perAttempt`, so that
    overhead + batchSize * perAttempt fits in the stale window, and no manual retry overwrites a row in flight or
    delivered. */
module DeliveryOwnership {
  import opened Types
  import opened Delivery
  import opened DeliverySafety

  datatype Bounds = Bounds(overhead: nat, perAttempt: nat)

  predicate FitsWindow(c: Config, b: Bounds) {
    c.maxAttempts >= 1 && b.overhead + c.batchSize * b.perAttempt <= c.staleAfter
  }

  ghost predicate WorkerOnTime(b: Bounds, clock: int, wk: Worker) {
    match wk
    case Idle => true
    case Delivering(_, startedAt, _, _) => clock <= startedAt + b.perAttempt
    case _ => clock <= wk.now + b.overhead
  }

  ghost predicate OnTime(b: Bounds, s: State) {
    forall w :: w in s.workers ==> WorkerOnTime(b, s.clock, s.workers[w])
  }

  /** The write of a retry request finds its row as its read did, or waiting again: not in flight, not delivered.
      A retry in one step always does. */
  predicate RetryInTime(s: State, e: Event) {
    e.RetryWrite? && e.id in s.rows ==> !s.rows[e.id].status.InFlight? && !s.rows[e.id].status.Delivered?
  }

  /** A run on which every state is on time. */
  ghost predicate IsTimelyRun(c: Config, b: Bounds, s: State, es: seq<Event>)
    decreases |es|
  {
    && OnTime(b, s)
    && (es == [] || (Enabled(c, s, es[0]) && RetryInTime(s, es[0]) && IsTimelyRun(c, b, Apply(c, s, es[0]), es[1..])))
  }

  lemma {:induction false} TimelyRunsAreRuns(c: Config, b: Bounds, s: State, es: seq<Event>)
    requires IsTimelyRun(c, b, s, es)
    ensures IsRun(c, s, es)
    decreases |es|
  {
    if es != [] { TimelyRunsAreRuns(c, b, Apply(c, s, es[0]), es[1..]); }
  }

  // ----- The invariant

  /** The row of a live claim is still exactly as the claim left it. */
  ghost predicate OwnsRow(s: State, now: int, x: Snapshot) {
    && x.id in s.rows
    && s.rows[x.id].status.InFlight?
    && s.rows[x.id].attemptCount == x.count
    && s.rows[x.id].updatedAt == now
  }

  /** The claim behind a snapshot that has not been POSTed yet has not been used up. */
  ghost predicate Unspent(s: State, x: Snapshot) {
    var h := HistoryOf(s, x.id);
    h.posts + h.goneDeaths + 1 <= h.claims
  }

  predicate Sent(phase: Phase) { phase.Posting? || phase.Posted? }

  ghost predicate OwnerOk(c: Config, b: Bounds, s: State, wk: Worker) {
    wk.Delivering? ==>
      && (forall i :: 0 <= i < |wk.todo| ==> OwnsRow(s, wk.now, wk.todo[i]))
      && (forall i :: 0 <= i < |wk.todo| && (i > 0 || !Sent(wk.phase)) ==> Unspent(s, wk.todo[i]))
      && wk.startedAt + |wk.todo| * b.perAttempt <= wk.now + b.overhead + c.batchSize * b.perAttempt
  }

  ghost predicate Owners(c: Config, b: Bounds, s: State) {
    forall w :: w in s.workers ==> OwnerOk(c, b, s, s.workers[w])
  }

  ghost predicate Apart(v: Worker, w: Worker) {
    v.Delivering? && w.Delivering? ==> forall i :: 0 <= i < |v.todo| ==> !InTodo(w.todo, v.todo[i].id)
  }

  ghost predicate Exclusive(s: State) {
    forall v, w :: v in s.workers && w in s.workers && v != w ==> Apart(s.workers[v], s.workers[w])
  }

  /** Every claim of a row is accounted for, and each stored attempt was recorded once. */
  ghost predicate LedgerOk(row: Row, h: History) {
    && h.claims == h.recorded + h.goneDeaths + h.resets + (if row.status.InFlight? then 1 else 0)
    && h.recorded == row.attemptCount
    && h.posts + h.goneDeaths <= h.claims
  }

  ghost predicate Ledger(s: State) {
    forall id :: id in s.rows ==> LedgerOk(s.rows[id], HistoryOf(s, id))
  }

  ghost predicate Owned(c: Config, b: Bounds, s: State) {
    Safe(c, s) && Owners(c, b, s) && Exclusive(s) && Ledger(s)
  }

  // ----- Preservation

  /** The stale reset passes over a row whose owner is on time. */
  lemma OwnedNotStale(c: Config, b: Bounds, s: State, wk: Worker, x: Snapshot, readAt: int)
    requires FitsWindow(c, b) && wk.Delivering? && |wk.todo| > 0
    requires OwnerOk(c, b, s, wk) && WorkerOnTime(b, s.clock, wk)
    requires OwnsRow(s, wk.now, x) && readAt <= s.clock
    ensures !IsStale(c, s.rows[x.id], readAt)
  {
    assert |wk.todo| * b.perAttempt >= b.perAttempt;
  }

  lemma OwnedUntouchedByWorker(c: Config, s: State, w: WorkerId, a: Action, v: Worker, i: nat)
    requires CanAct(c, s, w, a) && ActorOk(c, s, w)
    requires v.Delivering? && i < |v.todo| && OwnsRow(s, v.now, v.todo[i]) && (w in s.workers ==> Apart(v, s.workers[w]))
    ensures var id := v.todo[i].id;
      id in Act(c, s, w, a).rows && Act(c, s, w, a).rows[id] == s.rows[id] && HistoryOf(Act(c, s, w, a), id) == HistoryOf(s, id)
  {
    hide Act, Grows, CanAct;
    var x := v.todo[i];
    if WorkerOf(s, w).Locked? || WorkerOf(s, w).Loaded? {
      forall j | 0 <= j < |s.workers[w].todo| ensures s.workers[w].todo[j].id != x.id {
        assert HoldsLock(s, w, s.workers[w].now, s.workers[w].todo[j]);
      }
    }
    OnlyItsBatch(c, s, w, a, x.id);
  }

  lemma OwnedUntouchedOtherwise(c: Config, s: State, e: Event, id: RowId)
    requires !e.Work? && CanHappen(s, e) && RetryInTime(s, e)
    requires id in s.rows && s.rows[id].status.InFlight?
    requires e.ResetStale? ==> !IsStale(c, s.rows[id], e.readAt)
    ensures id in Happen(c, s, e).rows && Happen(c, s, e).rows[id] == s.rows[id]
    ensures HistoryOf(Happen(c, s, e), id) == HistoryOf(s, id)
  {
  }

  /** No event of another process touches the row of a live, timely claim. */
  lemma OwnedUntouched(c: Config, b: Bounds, s: State, e: Event, v: WorkerId, i: nat)
    requires FitsWindow(c, b) && Enabled(c, s, e) && RetryInTime(s, e) && !(e.Work? && e.w == v)
    requires e.Work? ==> ActorOk(c, s, e.w)
    requires v in s.workers && s.workers[v].Delivering? && i < |s.workers[v].todo|
    requires OwnerOk(c, b, s, s.workers[v]) && WorkerOnTime(b, s.clock, s.workers[v])
    requires e.Work? && e.w in s.workers ==> Apart(s.workers[v], s.workers[e.w])
    ensures var id := s.workers[v].todo[i].id;
      id in s.rows && Apply(c, s, e).rows[id] == s.rows[id] && HistoryOf(Apply(c, s, e), id) == HistoryOf(s, id)
  {
    hide Act, Grows, CanAct, Happen, CanHappen, HistoryOf, RetryInTime, Apart, ActorOk;
    var wk := s.workers[v];
    assert OwnsRow(s, wk.now, wk.todo[i]);
    if e.Work? {
      OwnedUntouchedByWorker(c, s, e.w, e.action, wk, i);
    } else {
      if e.ResetStale? { ResetReadsTheClock(s, e); OwnedNotStale(c, b, s, wk, wk.todo[i], e.readAt); }
      OwnedUntouchedOtherwise(c, s, e, wk.todo[i].id);
    }
  }

  lemma ResetReadsTheClock(s: State, e: Event)
    requires e.ResetStale? && CanHappen(s, e)
    ensures e.readAt <= s.clock
  {
  }

  lemma OwnerKept(c: Config, b: Bounds, s: State, e: Event, v: WorkerId)
    requires FitsWindow(c, b) && Enabled(c, s, e) && RetryInTime(s, e) && !(e.Work? && e.w == v)
    requires e.Work? ==> ActorOk(c, s, e.w)
    requires v in s.workers && OwnerOk(c, b, s, s.workers[v]) && WorkerOnTime(b, s.clock, s.workers[v])
    requires e.Work? && e.w in s.workers ==> Apart(s.workers[v], s.workers[e.w])
    ensures OwnerOk(c, b, Apply(c, s, e), s.workers[v])
  {
    hide Enabled, Apply, HistoryOf;
    var wk := s.workers[v];
    if wk.Delivering? {
      forall i | 0 <= i < |wk.todo|
        ensures OwnsRow(Apply(c, s, e), wk.now, wk.todo[i])
        ensures Unspent(s, wk.todo[i]) ==> Unspent(Apply(c, s, e), wk.todo[i])
      {
        OwnedUntouched(c, b, s, e, v, i);
        assert OwnsRow(s, wk.now, wk.todo[i]);
        RowsStay(c, s, e);
      }
    }
  }

  lemma RowsStay(c: Config, s: State, e: Event)
    requires Enabled(c, s, e)
    ensures s.rows.Keys <= Apply(c, s, e).rows.Keys
  {
    hide Act, Happen;
    if !e.Work? { HappenGrows(c, s, e); }
  }

  lemma OwnerCommits(c: Config, b: Bounds, s: State, w: WorkerId)
    requires CanAct(c, s, w, CommitClaim) && ActorOk(c, s, w) && Ledger(s)
    requires w in s.workers && WorkerOnTime(b, s.clock, s.workers[w])
    ensures OwnerOk(c, b, Act(c, s, w, CommitClaim), Act(c, s, w, CommitClaim).workers[w])
  {
    var s', wk := Act(c, s, w, CommitClaim), s.workers[w];
    forall i | 0 <= i < |wk.todo|
      ensures OwnsRow(s', wk.now, wk.todo[i]) && Unspent(s', wk.todo[i])
    {
      assert HoldsLock(s, w, wk.now, wk.todo[i]);
      assert InTodo(wk.todo, wk.todo[i].id);
      assert LedgerOk(s.rows[wk.todo[i].id], HistoryOf(s, wk.todo[i].id));
    }
    MultiplyMonotone(|wk.todo|, c.batchSize, b.perAttempt);
  }

  lemma MultiplyMonotone(x: nat, y: nat, k: nat)
    requires x <= y
    ensures x * k <= y * k
  {
  }

  lemma OwnerAdvances(c: Config, b: Bounds, s: State, w: WorkerId, a: Action)
    requires CanAct(c, s, w, a) && ActorOk(c, s, w)
    requires a.MarkGone? || a.Record?
    requires w in s.workers && OwnerOk(c, b, s, s.workers[w]) && WorkerOnTime(b, s.clock, s.workers[w])
    ensures OwnerOk(c, b, Act(c, s, w, a), Act(c, s, w, a).workers[w])
  {
    hide SettledRow, Grows;
    var s', wk := Act(c, s, w, a), s.workers[w];
    forall i | 0 <= i < |wk.todo| - 1
      ensures OwnsRow(s', wk.now, wk.todo[1..][i]) && Unspent(s', wk.todo[1..][i])
    {
      assert wk.todo[1..][i] == wk.todo[i + 1];
      assert OwnsRow(s, wk.now, wk.todo[i + 1]) && Unspent(s, wk.todo[i + 1]);
    }
    assert (|wk.todo| - 1) * b.perAttempt == |wk.todo| * b.perAttempt - b.perAttempt;
  }

  lemma OwnerMoves(c: Config, b: Bounds, s: State, w: WorkerId, a: Action)
    requires CanAct(c, s, w, a) && ActorOk(c, s, w)
    requires a.Refetch? || a.SendPost? || a.Receive?
    requires w in s.workers && OwnerOk(c, b, s, s.workers[w])
    ensures OwnerOk(c, b, Act(c, s, w, a), Act(c, s, w, a).workers[w])
  {
    hide Grows;
    var s', wk := Act(c, s, w, a), s.workers[w];
    forall i | 0 <= i < |wk.todo|
      ensures OwnsRow(s', wk.now, wk.todo[i])
      ensures i > 0 || !Sent(s'.workers[w].phase) ==> Unspent(s', wk.todo[i])
    {
      assert OwnsRow(s, wk.now, wk.todo[i]);
    }
  }

  lemma OwnerActs(c: Config, b: Bounds, s: State, w: WorkerId, a: Action)
    requires CanAct(c, s, w, a) && ActorOk(c, s, w) && Ledger(s)
    requires w in s.workers ==> OwnerOk(c, b, s, s.workers[w]) && WorkerOnTime(b, s.clock, s.workers[w])
    ensures OwnerOk(c, b, Act(c, s, w, a), Act(c, s, w, a).workers[w])
  {
    match a
    case CommitClaim => OwnerCommits(c, b, s, w);
    case MarkGone => OwnerAdvances(c, b, s, w, a);
    case Record(_) => OwnerAdvances(c, b, s, w, a);
    case Refetch => OwnerMoves(c, b, s, w, a);
    case SendPost => OwnerMoves(c, b, s, w, a);
    case Receive(_) => OwnerMoves(c, b, s, w, a);
    case StartBatch =>
    case SelectRows(_) =>
    case LoadBodies(_) =>
    case Crash =>
  }

  /** A worker that is delivering afterwards was already, or has just committed its claim. */
  lemma BatchShrinks(c: Config, s: State, w: WorkerId, a: Action)
    requires CanAct(c, s, w, a) && Act(c, s, w, a).workers[w].Delivering?
    ensures w in s.workers
    ensures if a.CommitClaim? then s.workers[w].Loaded? else s.workers[w].Delivering?
    ensures var todo, todo' := s.workers[w].todo, Act(c, s, w, a).workers[w].todo;
      todo' == todo || (todo != [] && todo' == todo[1..] && !a.CommitClaim?)
  {
    hide Grows, HistoryOf, ClaimRows, SettledRow;
  }

  lemma ApartKept(c: Config, b: Bounds, s: State, w: WorkerId, a: Action, v: WorkerId)
    requires CanAct(c, s, w, a) && ActorOk(c, s, w)
    requires v in s.workers && OwnerOk(c, b, s, s.workers[v])
    requires w in s.workers ==> Apart(s.workers[v], s.workers[w])
    ensures Apart(s.workers[v], Act(c, s, w, a).workers[w])
  {
    hide Act, CanAct, Grows;
    var mine, wk' := s.workers[v], Act(c, s, w, a).workers[w];
    if mine.Delivering? && wk'.Delivering? {
      BatchShrinks(c, s, w, a);
      var wk := s.workers[w];
      var shift := |wk.todo| - |wk'.todo|;
      forall i, j | 0 <= i < |mine.todo| && 0 <= j < |wk'.todo| ensures wk'.todo[j].id != mine.todo[i].id {
        assert OwnsRow(s, mine.now, mine.todo[i]);
        assert wk'.todo[j] == wk.todo[j + shift];
        if a.CommitClaim? {
          assert HoldsLock(s, w, wk.now, wk.todo[j]);
        } else {
          assert !InTodo(wk.todo, mine.todo[i].id);
        }
      }
    }
  }

  lemma ApartSymmetric(v: Worker, w: Worker)
    requires Apart(v, w)
    ensures Apart(w, v)
  {
    if v.Delivering? && w.Delivering? {
      forall i, j | 0 <= i < |w.todo| && 0 <= j < |v.todo| ensures v.todo[j].id != w.todo[i].id {
        assert !InTodo(w.todo, v.todo[j].id);
      }
    }
  }

  lemma LedgerClaimed(c: Config, s: State, w: WorkerId, id: RowId)
    requires CanAct(c, s, w, CommitClaim) && ActorOk(c, s, w) && id in s.rows
    requires LedgerOk(s.rows[id], HistoryOf(s, id))
    ensures LedgerOk(Act(c, s, w, CommitClaim).rows[id], HistoryOf(Act(c, s, w, CommitClaim), id))
  {
    var todo := s.workers[w].todo;
    if InTodo(todo, id) {
      var i :| 0 <= i < |todo| && todo[i].id == id;
      assert HoldsLock(s, w, s.workers[w].now, todo[i]);
    }
  }

  lemma LedgerActed(c: Config, b: Bounds, s: State, w: WorkerId, a: Action, id: RowId)
    requires CanAct(c, s, w, a) && id in s.rows && !a.CommitClaim?
    requires w in s.workers ==> OwnerOk(c, b, s, s.workers[w])
    requires LedgerOk(s.rows[id], HistoryOf(s, id))
    ensures LedgerOk(Act(c, s, w, a).rows[id], HistoryOf(Act(c, s, w, a), id))
  {
    hide Grows, CanSelect;
    if Busy(s, w) {
      var wk := s.workers[w];
      assert OwnsRow(s, wk.now, wk.todo[0]);
      assert !Sent(wk.phase) ==> Unspent(s, wk.todo[0]);
    }
  }

  lemma LedgerHappened(c: Config, s: State, e: Event, id: RowId)
    requires !e.Work? && CanHappen(s, e) && RetryInTime(s, e) && Fresh(s) && id in Happen(c, s, e).rows
    requires id in s.rows ==> LedgerOk(s.rows[id], HistoryOf(s, id))
    ensures LedgerOk(Happen(c, s, e).rows[id], HistoryOf(Happen(c, s, e), id))
  {
  }

  lemma LedgerStep(c: Config, b: Bounds, s: State, e: Event)
    requires Owned(c, b, s) && Enabled(c, s, e) && RetryInTime(s, e)
    ensures Ledger(Apply(c, s, e))
  {
    hide Act, CanAct, Happen, CanHappen, LedgerOk, WorkerOk, RowOk, LockOk, OwnerOk, Apart;
    var s' := Apply(c, s, e);
    forall id | id in s'.rows ensures LedgerOk(s'.rows[id], HistoryOf(s', id)) {
      if !e.Work? {
        LedgerHappened(c, s, e, id);
      } else if e.action.CommitClaim? {
        LedgerClaimed(c, s, e.w, id);
      } else {
        LedgerActed(c, b, s, e.w, e.action, id);
      }
    }
  }

  lemma OwnersStep(c: Config, b: Bounds, s: State, e: Event)
    requires FitsWindow(c, b) && Owned(c, b, s) && OnTime(b, s) && Enabled(c, s, e) && RetryInTime(s, e)
    ensures Owners(c, b, Apply(c, s, e))
  {
    hide Act, CanAct, Happen, CanHappen, LedgerOk, WorkerOk, RowOk, LockOk, OwnerOk, Apart, WorkerOnTime;
    var s' := Apply(c, s, e);
    if !e.Work? { HappenGrows(c, s, e); }
    forall v | v in s'.workers ensures OwnerOk(c, b, s', s'.workers[v]) {
      if e.Work? && e.w == v { OwnerActs(c, b, s, v, e.action); } else { OwnerKept(c, b, s, e, v); }
    }
  }

  lemma ExclusiveStep(c: Config, b: Bounds, s: State, e: Event)
    requires Owned(c, b, s) && Enabled(c, s, e)
    ensures Exclusive(Apply(c, s, e))
  {
    hide Act, CanAct, Happen, CanHappen, LedgerOk, WorkerOk, RowOk, LockOk, OwnerOk, Apart;
    var s' := Apply(c, s, e);
    if !e.Work? { HappenGrows(c, s, e); }
    forall v, w | v in s'.workers && w in s'.workers && v != w ensures Apart(s'.workers[v], s'.workers[w]) {
      if e.Work? && e.w == w {
        ApartKept(c, b, s, w, e.action, v);
      } else if e.Work? && e.w == v {
        ApartKept(c, b, s, v, e.action, w);
        ApartSymmetric(s'.workers[w], s'.workers[v]);
      }
    }
  }

  lemma OwnedStep(c: Config, b: Bounds, s: State, e: Event)
    requires FitsWindow(c, b) && Owned(c, b, s) && OnTime(b, s) && Enabled(c, s, e) && RetryInTime(s, e)
    ensures Owned(c, b, Apply(c, s, e))
  {
    hide Enabled, Apply, Owners, Exclusive, Ledger, Safe;
    SafeStep(c, s, e);
    OwnersStep(c, b, s, e);
    ExclusiveStep(c, b, s, e);
    LedgerStep(c, b, s, e);
  }

  lemma {:induction false} OwnedRun(c: Config, b: Bounds, s: State, es: seq<Event>)
    requires FitsWindow(c, b) && Owned(c, b, s) && IsTimelyRun(c, b, s, es)
    ensures IsRun(c, s, es) && Owned(c, b, After(c, s, es)) && OnTime(b, After(c, s, es))
    decreases |es|
  {
    hide Enabled, Apply, Owned, OnTime;
    if es != [] {
      OwnedStep(c, b, s, es[0]);
      OwnedRun(c, b, Apply(c, s, es[0]), es[1..]);
    }
  }

  lemma OwnedInitially(c: Config, b: Bounds, s: State)
    requires Initial(s)
    ensures Owned(c, b, s)
  {
    SafeInitially(c, s);
  }

  /** The states that timely runs reach. */
  ghost predicate Reached(c: Config, b: Bounds, s0: State, es: seq<Event>) {
    FitsWindow(c, b) && Initial(s0) && IsTimelyRun(c, b, s0, es)
  }

  lemma ReachedIsOwned(c: Config, b: Bounds, s0: State, es: seq<Event>)
    requires Reached(c, b, s0, es)
    ensures IsRun(c, s0, es) && Owned(c, b, After(c, s0, es)) && OnTime(b, After(c, s0, es))
  {
    OwnedInitially(c, b, s0);
    OwnedRun(c, b, s0, es);
  }

  // ----- The theorems

  /** The row of every live claim is in flight with the count the worker remembers, and no row is
      claimed twice: two claims of one row are the same claim of the same worker. */
  lemma ExclusiveOwnership(c: Config, b: Bounds, s0: State, es: seq<Event>, v: WorkerId, i: nat, w: WorkerId, j: nat)
    requires Reached(c, b, s0, es)
    requires IsRun(c, s0, es)
    requires var s := After(c, s0, es);
      && WorkerOf(s, v).Delivering? && i < |WorkerOf(s, v).todo|
      && WorkerOf(s, w).Delivering? && j < |WorkerOf(s, w).todo|
    ensures var s := After(c, s0, es);
      var mine, theirs := WorkerOf(s, v).todo[i], WorkerOf(s, w).todo[j];
      && mine.id in s.rows && s.rows[mine.id].status.InFlight? && s.rows[mine.id].attemptCount == mine.count
      && (mine.id == theirs.id ==> v == w && i == j)
  {
    ReachedIsOwned(c, b, s0, es);
    var s := After(c, s0, es);
    assert OwnsRow(s, s.workers[v].now, s.workers[v].todo[i]);
    if v != w {
      assert Apart(s.workers[v], s.workers[w]);
    } else {
      assert WorkerOk(c, s, v, s.workers[v]);
    }
  }

  /** Whatever the stale reset finds has no live owner. */
  lemma StaleResetHitsOnlyOrphans(c: Config, b: Bounds, s0: State, es: seq<Event>, readAt: int, id: RowId, w: WorkerId)
    requires Reached(c, b, s0, es) && IsRun(c, s0, es)
    requires readAt <= After(c, s0, es).clock
    requires id in After(c, s0, es).rows && IsStale(c, After(c, s0, es).rows[id], readAt)
    ensures !InTodo(Todo(WorkerOf(After(c, s0, es), w)), id)
  {
    ReachedIsOwned(c, b, s0, es);
    var s := After(c, s0, es);
    var wk := WorkerOf(s, w);
    forall i | 0 <= i < |Todo(wk)| ensures Todo(wk)[i].id != id {
      assert WorkerOk(c, s, w, wk);
      if wk.Delivering? {
        assert OwnsRow(s, wk.now, wk.todo[i]);
        OwnedNotStale(c, b, s, wk, wk.todo[i], readAt);
      } else {
        assert HoldsLock(s, w, wk.now, wk.todo[i]);
      }
    }
  }

  /** A row that is not open is in nobody's batch, so only a retry can change it. */
  lemma ClosedRowStays(c: Config, b: Bounds, s: State, e: Event, id: RowId)
    requires Owned(c, b, s) && Enabled(c, s, e) && RetryInTime(s, e)
    requires id in s.rows && !Open(s.rows[id].status) && e != Retry(id) && e != RetryWrite(id)
    ensures id in Apply(c, s, e).rows && Apply(c, s, e).rows[id] == s.rows[id]
    ensures HistoryOf(Apply(c, s, e), id) == HistoryOf(s, id)
  {
    hide Act, CanAct, Rows, Locks, Ledger, Exclusive;
    if e.Work? {
      var wk := WorkerOf(s, e.w);
      forall i | 0 <= i < |Todo(wk)| ensures Todo(wk)[i].id != id {
        assert WorkerOk(c, s, e.w, wk);
        if wk.Delivering? {
          assert OwnsRow(s, wk.now, wk.todo[i]);
        } else {
          assert HoldsLock(s, e.w, wk.now, wk.todo[i]);
        }
      }
      OnlyItsBatch(c, s, e.w, e.action, id);
    }
  }

  lemma {:induction false} DeliveredStays(c: Config, b: Bounds, s: State, es: seq<Event>, id: RowId)
    requires FitsWindow(c, b) && Owned(c, b, s) && IsTimelyRun(c, b, s, es) && IsRun(c, s, es)
    requires id in s.rows && s.rows[id].status.Delivered?
    ensures id in After(c, s, es).rows && After(c, s, es).rows[id] == s.rows[id]
    ensures HistoryOf(After(c, s, es), id) == HistoryOf(s, id)
    decreases |es|
  {
    hide Act, CanAct, Owned, OnTime;
    if es != [] {
      assert es[0] != Retry(id) && es[0] != RetryWrite(id);
      ClosedRowStays(c, b, s, es[0], id);
      OwnedStep(c, b, s, es[0]);
      DeliveredStays(c, b, Apply(c, s, es[0]), es[1..], id);
    }
  }

  /** Delivered is final: however a timely run goes on, the row keeps every column and is never POSTed again. */
  lemma DeliveredIsFinal(c: Config, b: Bounds, s0: State, es: seq<Event>, fs: seq<Event>, id: RowId)
    requires Reached(c, b, s0, es) && IsRun(c, s0, es)
    requires IsTimelyRun(c, b, After(c, s0, es), fs) && IsRun(c, After(c, s0, es), fs)
    requires id in After(c, s0, es).rows && After(c, s0, es).rows[id].status.Delivered?
    ensures var s, t := After(c, s0, es), After(c, After(c, s0, es), fs);
      id in t.rows && t.rows[id] == s.rows[id] && HistoryOf(t, id).posts == HistoryOf(s, id).posts
  {
    ReachedIsOwned(c, b, s0, es);
    DeliveredStays(c, b, After(c, s0, es), fs, id);
  }

  /** Conservation of claims: each claim of a row ended as a recorded outcome, an inactive death or a stale
      reset, or is the one in flight; the stored count is the number of recorded outcomes; so the POSTs
      exceed it by at most the resets plus one in progress. */
  lemma ClaimsAreConserved(c: Config, b: Bounds, s0: State, es: seq<Event>, id: RowId)
    requires Reached(c, b, s0, es) && IsRun(c, s0, es)
    requires id in After(c, s0, es).rows
    ensures var row, h := After(c, s0, es).rows[id], HistoryOf(After(c, s0, es), id);
      var current := if row.status.InFlight? then 1 else 0;
      && h.claims == h.recorded + h.goneDeaths + h.resets + current
      && h.recorded == row.attemptCount
      && row.attemptCount <= h.posts <= row.attemptCount + h.resets + current
  {
    ReachedIsOwned(c, b, s0, es);
    var s := After(c, s0, es);
    assert LedgerOk(s.rows[id], HistoryOf(s, id)) && RowOk(c, s.clock, s.rows[id], HistoryOf(s, id));
  }

  /** The condition on retries is exact: the write of a retry keeps the claims of its row accounted for and leaves a
      delivered row delivered if and only if it finds the row neither in flight nor delivered. On a row in a live batch
      it takes the row away from its owner. */
  lemma RetryKeepsPromisesIff(c: Config, b: Bounds, s0: State, es: seq<Event>, id: RowId)
    requires Reached(c, b, s0, es) && IsRun(c, s0, es) && CanHappen(After(c, s0, es), RetryWrite(id))
    ensures var s := After(c, s0, es);
      var s' := Apply(c, s, RetryWrite(id));
      && (RetryInTime(s, RetryWrite(id)) <==>
            LedgerOk(s'.rows[id], HistoryOf(s', id)) && (s.rows[id].status.Delivered? ==> s'.rows[id] == s.rows[id]))
      && (forall w, i :: WorkerOf(s, w).Delivering? && 0 <= i < |WorkerOf(s, w).todo| && WorkerOf(s, w).todo[i].id == id ==>
            !RetryInTime(s, RetryWrite(id)) && !OwnsRow(s', WorkerOf(s, w).now, WorkerOf(s, w).todo[i]))
  {
    ReachedIsOwned(c, b, s0, es);
    var s := After(c, s0, es);
    assert LedgerOk(s.rows[id], HistoryOf(s, id));
    forall w, i | WorkerOf(s, w).Delivering? && 0 <= i < |WorkerOf(s, w).todo| && WorkerOf(s, w).todo[i].id == id
      ensures s.rows[id].status.InFlight?
    {
      assert OwnerOk(c, b, s, s.workers[w]);
      assert OwnsRow(s, WorkerOf(s, w).now, WorkerOf(s, w).todo[i]);
    }
  }
}
